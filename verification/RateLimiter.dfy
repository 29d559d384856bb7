/** The fixed-window limiter (createIpRateLimiter in rate-limit.ts). A JavaScript Map is a
    sequence of entries in insertion order. */
module RateLimiter {
  import opened Basics

  datatype Entry = Entry(key: string, count: nat, windowStart: Time)

  type Windows = seq<Entry>

  datatype Options = Options(max: nat, windowMs: nat, maxEntries: nat)

  /** Where `key` is, or the length. */
  function IndexOf(ws: Windows, key: string): (i: nat)
    ensures i <= |ws|
    ensures i < |ws| ==> ws[i].key == key
    ensures forall j :: 0 <= j < i ==> ws[j].key != key
  {
    if ws == [] || ws[0].key == key then 0 else 1 + IndexOf(ws[1..], key)
  }

  function Without(ws: Windows, key: string): Windows {
    if ws == [] then [] else if ws[0].key == key then ws[1..] else [ws[0]] + Without(ws[1..], key)
  }

  predicate Expired(o: Options, e: Entry, now: Time) {
    now - e.windowStart >= o.windowMs
  }

  /** The entry a hit counts against, if its window is still running. */
  predicate Running(o: Options, ws: Windows, key: string, now: Time) {
    IndexOf(ws, key) < |ws| && !Expired(o, ws[IndexOf(ws, key)], now)
  }

  function Opened(o: Options, ws: Windows, key: string, now: Time): Windows {
    var ws' := Without(ws, key) + [Entry(key, if o.max > 0 then 1 else 0, now)];
    if |ws'| > o.maxEntries then ws'[1..] else ws'
  }

  function SecondsUntil(ms: int): int {
    var s := (ms + 999) / 1000;
    if s > 1 then s else 1
  }

  /** hit(): the windows afterwards and the answer. */
  function AfterHit(o: Options, ws: Windows, key: string, now: Time): (Windows, int) {
    if !Running(o, ws, key, now) then (Opened(o, ws, key, now), if o.max > 0 then 0 else SecondsUntil(o.windowMs))
    else
      var i := IndexOf(ws, key);
      if ws[i].count >= o.max then (ws, SecondsUntil(ws[i].windowStart + o.windowMs - now))
      else (ws[i := ws[i].(count := ws[i].count + 1)], 0)
  }

  function AfterSweep(o: Options, ws: Windows, now: Time): Windows {
    if ws == [] then []
    else (if Expired(o, ws[0], now) then [] else [ws[0]]) + AfterSweep(o, ws[1..], now)
  }

  class IpRateLimiter {
    const opts: Options
    var windows: Windows

    constructor (opts: Options)
      ensures this.opts == opts && windows == []
    {
      this.opts, windows := opts, [];
    }

    method Hit(key: string, now: Time) returns (retryAfter: int)
      modifies this
      ensures (windows, retryAfter) == AfterHit(opts, old(windows), key, now)
    {
      var i := IndexOf(windows, key);
      if i == |windows| || now - windows[i].windowStart >= opts.windowMs {
        windows := Without(windows, key) + [Entry(key, 0, now)];
        var count := 0;
        if count < opts.max {
          windows := windows[|windows| - 1 := Entry(key, 1, now)];
          assert windows == Without(old(windows), key) + [Entry(key, 1, now)];
        }
        if |windows| > opts.maxEntries { windows := windows[1..]; }
        return if count < opts.max then 0 else SecondsUntil(opts.windowMs);
      }
      var w := windows[i];
      if w.count >= opts.max { return SecondsUntil(w.windowStart + opts.windowMs - now); }
      windows := windows[i := w.(count := w.count + 1)];
      retryAfter := 0;
    }

    method Sweep(now: Time)
      modifies this
      ensures windows == AfterSweep(opts, old(windows), now)
    {
      var i := 0;
      ghost var was := windows;
      while i < |windows|
        invariant i <= |windows|
        invariant windows[..i] + AfterSweep(opts, windows[i..], now) == AfterSweep(opts, was, now)
        decreases |windows| - i
      {
        ghost var before := windows;
        if now - windows[i].windowStart >= opts.windowMs {
          windows := windows[..i] + windows[i + 1..];
          assert windows[i..] == before[i + 1..] && windows[..i] == before[..i] && before[i..][1..] == before[i + 1..];
        } else {
          assert windows[..i + 1] == windows[..i] + [windows[i]] && windows[i..][1..] == windows[i + 1..];
          i := i + 1;
        }
      }
      assert windows[..i] == windows && windows[i..] == [];
    }
  }

  // ---------------------------------------------------------------- the order of the entries

  ghost predicate Sorted(ws: Windows) {
    forall i, j :: 0 <= i < j < |ws| ==> ws[i].windowStart <= ws[j].windowStart
  }

  ghost predicate UniqueKeys(ws: Windows) {
    forall i, j :: 0 <= i < j < |ws| ==> ws[i].key != ws[j].key
  }

  /** Insertion order is the order of window starts. */
  ghost predicate Ordered(o: Options, ws: Windows, now: Time) {
    && Sorted(ws) && UniqueKeys(ws) && |ws| <= o.maxEntries
    && (forall i :: 0 <= i < |ws| ==> ws[i].windowStart <= now)
  }

  datatype Event = Hit(key: string, now: Time) | Sweep(now: Time)

  function After(o: Options, ws: Windows, e: Event): (Windows, int) {
    match e
    case Hit(key, now) => AfterHit(o, ws, key, now)
    case Sweep(now) => (AfterSweep(o, ws, now), 0)
  }

  lemma {:induction false} SweepKeeps(o: Options, ws: Windows, now: Time, e: Entry)
    ensures e in AfterSweep(o, ws, now) <==> e in ws && !Expired(o, e, now)
    ensures |AfterSweep(o, ws, now)| <= |ws|
  {
    if ws != [] { SweepKeeps(o, ws[1..], now, e); }
  }

  /** In an ordered map, what has expired is a prefix. */
  lemma {:induction false} SweepDropsPrefix(o: Options, ws: Windows, now: Time) returns (k: nat)
    requires Sorted(ws)
    ensures k <= |ws| && AfterSweep(o, ws, now) == ws[k..]
    ensures forall i :: 0 <= i < k ==> Expired(o, ws[i], now)
  {
    if ws == [] {
      k := 0;
    } else if Expired(o, ws[0], now) {
      k := SweepDropsPrefix(o, ws[1..], now);
      k := k + 1;
    } else {
      NothingExpired(o, ws, now);
      k := 0;
    }
  }

  lemma {:induction false} NothingExpired(o: Options, ws: Windows, now: Time)
    requires forall i :: 0 <= i < |ws| ==> !Expired(o, ws[i], now)
    ensures AfterSweep(o, ws, now) == ws
  {
    if ws != [] {
      NothingExpired(o, ws[1..], now);
      assert ws == [ws[0]] + ws[1..];
    }
  }

  lemma {:induction false} WithoutIsCut(ws: Windows, key: string)
    ensures var i := IndexOf(ws, key); Without(ws, key) == if i < |ws| then ws[..i] + ws[i + 1..] else ws
  {
    if ws != [] && ws[0].key != key {
      WithoutIsCut(ws[1..], key);
      assert ws == [ws[0]] + ws[1..];
    }
  }

  lemma WithoutOrdered(o: Options, ws: Windows, key: string, now: Time)
    requires Ordered(o, ws, now)
    ensures Ordered(o, Without(ws, key), now)
    ensures forall i :: 0 <= i < |Without(ws, key)| ==> Without(ws, key)[i].key != key
  {
    WithoutIsCut(ws, key);
    hide Without;
  }

  lemma OpenedOrdered(o: Options, ws: Windows, key: string, before: Time, now: Time)
    requires Ordered(o, ws, before) && before <= now
    ensures Ordered(o, Opened(o, ws, key, now), now)
  {
    WithoutOrdered(o, ws, key, before);
    hide Without;
  }

  lemma CountedOrdered(o: Options, ws: Windows, i: nat, now: Time)
    requires Ordered(o, ws, now) && i < |ws|
    ensures Ordered(o, ws[i := ws[i].(count := ws[i].count + 1)], now)
  {
  }

  /** Every event keeps the map ordered and within its bound. */
  lemma EventKeepsOrdered(o: Options, ws: Windows, e: Event, before: Time)
    requires Ordered(o, ws, before) && before <= e.now
    ensures Ordered(o, After(o, ws, e).0, e.now)
  {
    match e
    case Hit(key, now) =>
      OpenedOrdered(o, ws, key, before, now);
      if Running(o, ws, key, now) {
        LaterOrdered(o, ws, before, now);
        CountedOrdered(o, ws, IndexOf(ws, key), now);
      }
      hide Opened, IndexOf, Ordered;
    case Sweep(now) =>
      var k := SweepDropsPrefix(o, ws, now);
      LaterOrdered(o, ws, before, now);
      TailOrdered(o, ws, k, now);
      hide Ordered, AfterSweep;
  }

  lemma LaterOrdered(o: Options, ws: Windows, before: Time, now: Time)
    requires Ordered(o, ws, before) && before <= now
    ensures Ordered(o, ws, now)
  {
  }

  lemma TailOrdered(o: Options, ws: Windows, k: nat, now: Time)
    requires Ordered(o, ws, now) && k <= |ws|
    ensures Ordered(o, ws[k..], now)
  {
  }

  // ---------------------------------------------------------------- sweeping is invisible

  /** The unswept map is some expired entries and then the swept one. */
  ghost predicate Refines(o: Options, swept: Windows, plain: Windows, now: Time, gone: Windows) {
    plain == gone + swept && forall e :: e in gone ==> Expired(o, e, now)
  }

  lemma SweepRefines(o: Options, swept: Windows, plain: Windows, before: Time, gone: Windows, now: Time) returns (gone': Windows)
    requires Ordered(o, plain, before) && Refines(o, swept, plain, before, gone) && before <= now
    ensures Refines(o, AfterSweep(o, swept, now), plain, now, gone')
  {
    forall i, j | 0 <= i < j < |swept| ensures swept[i].windowStart <= swept[j].windowStart {
      assert swept[i] == plain[|gone| + i] && swept[j] == plain[|gone| + j];
    }
    var k := SweepDropsPrefix(o, swept, now);
    gone' := gone + swept[..k];
    assert swept == swept[..k] + swept[k..];
  }

  lemma {:induction false} IndexInTail(gone: Windows, swept: Windows, key: string)
    ensures IndexOf(gone + swept, key) == if IndexOf(gone, key) < |gone| then IndexOf(gone, key) else |gone| + IndexOf(swept, key)
  {
    if gone == [] {
      assert gone + swept == swept;
    } else {
      assert (gone + swept)[1..] == gone[1..] + swept;
      IndexInTail(gone[1..], swept, key);
    }
  }

  lemma {:induction false} WithoutInTail(gone: Windows, swept: Windows, key: string)
    ensures Without(gone + swept, key) == if IndexOf(gone, key) < |gone| then Without(gone, key) + swept else gone + Without(swept, key)
  {
    if gone == [] {
      assert gone + swept == swept;
    } else {
      assert (gone + swept)[1..] == gone[1..] + swept;
      WithoutInTail(gone[1..], swept, key);
      if gone[0].key != key {
        assert [gone[0]] + (gone[1..] + Without(swept, key)) == gone + Without(swept, key);
        assert [gone[0]] + (Without(gone[1..], key) + swept) == [gone[0]] + Without(gone[1..], key) + swept;
      }
    }
  }

  lemma {:induction false} WithoutMembers(ws: Windows, key: string)
    ensures forall e :: e in Without(ws, key) ==> e in ws
    ensures (forall e :: e in ws ==> e.key != key) ==> Without(ws, key) == ws && IndexOf(ws, key) == |ws|
    ensures |Without(ws, key)| <= |ws|
  {
    if ws != [] { WithoutMembers(ws[1..], key); }
  }

  /** A key found among the entries gone is not among the others. */
  lemma FoundOnce(gone: Windows, swept: Windows, key: string)
    requires UniqueKeys(gone + swept) && IndexOf(gone, key) < |gone|
    ensures Without(swept, key) == swept && IndexOf(swept, key) == |swept|
  {
    WithoutMembers(swept, key);
    hide Without, IndexOf;
    KeysDiffer(gone, swept, IndexOf(gone, key));
    hide UniqueKeys;
  }

  lemma KeysDiffer(gone: Windows, swept: Windows, i: nat)
    requires UniqueKeys(gone + swept) && i < |gone|
    ensures forall e :: e in swept ==> e.key != gone[i].key
  {
    var all := gone + swept;
    forall j | 0 <= j < |swept| ensures swept[j].key != gone[i].key {
      assert all[i] == gone[i] && all[|gone| + j] == swept[j];
    }
  }

  /** Evicting the oldest entry of the unswept map evicts none of the swept one, unless both
      are equally full. */
  lemma EvictionRefines(gone: Windows, swept: Windows, maxEntries: nat) returns (gone': Windows)
    requires |gone + swept| <= maxEntries + 1 && swept != []
    ensures var plain := gone + swept;
      (if |plain| > maxEntries then plain[1..] else plain) == gone' + if |swept| > maxEntries then swept[1..] else swept
    ensures forall e :: e in gone' ==> e in gone
  {
    gone' := if |gone + swept| > maxEntries && gone != [] then gone[1..] else gone;
  }

  lemma OpenedRefines(o: Options, swept: Windows, plain: Windows, before: Time, gone: Windows, key: string, now: Time) returns (gone': Windows)
    requires Ordered(o, plain, before) && Refines(o, swept, plain, before, gone) && before <= now
    ensures Refines(o, Opened(o, swept, key, now), Opened(o, plain, key, now), now, gone')
  {
    var left, rest := LeftOver(gone, swept, key);
    hide Without, IndexOf;
    var e := [Entry(key, if o.max > 0 then 1 else 0, now)];
    assert left + rest + e == left + (rest + e);
    gone' := EvictionRefines(left, rest + e, o.maxEntries);
  }

  lemma LeftOver(gone: Windows, swept: Windows, key: string) returns (left: Windows, rest: Windows)
    requires UniqueKeys(gone + swept)
    ensures Without(gone + swept, key) == left + rest && rest == Without(swept, key)
    ensures |left + rest| <= |gone + swept| && forall e :: e in left ==> e in gone
  {
    WithoutInTail(gone, swept, key);
    WithoutMembers(gone, key);
    WithoutMembers(gone + swept, key);
    if IndexOf(gone, key) < |gone| { FoundOnce(gone, swept, key); }
    left, rest := if IndexOf(gone, key) < |gone| then Without(gone, key) else gone, Without(swept, key);
    hide Without;
  }

  /** A running window is among the entries the swept map has kept. */
  lemma RunningInTail(o: Options, swept: Windows, plain: Windows, before: Time, gone: Windows, key: string, now: Time)
    requires Ordered(o, plain, before) && Refines(o, swept, plain, before, gone) && before <= now
    ensures Running(o, plain, key, now) <==> Running(o, swept, key, now)
    ensures Running(o, plain, key, now) ==> IndexOf(plain, key) == |gone| + IndexOf(swept, key)
  {
    IndexInTail(gone, swept, key);
    if IndexOf(gone, key) < |gone| {
      FoundOnce(gone, swept, key);
      assert gone[IndexOf(gone, key)] in gone;
      assert !Running(o, plain, key, now) && !Running(o, swept, key, now);
    } else {
      assert IndexOf(plain, key) < |plain| ==> plain[IndexOf(plain, key)] == swept[IndexOf(swept, key)];
    }
    hide IndexOf, Ordered;
  }

  lemma HitRefines(o: Options, swept: Windows, plain: Windows, before: Time, gone: Windows, key: string, now: Time) returns (gone': Windows)
    requires Ordered(o, plain, before) && Refines(o, swept, plain, before, gone) && before <= now
    ensures AfterHit(o, swept, key, now).1 == AfterHit(o, plain, key, now).1
    ensures Refines(o, AfterHit(o, swept, key, now).0, AfterHit(o, plain, key, now).0, now, gone')
  {
    RunningInTail(o, swept, plain, before, gone, key, now);
    if Running(o, plain, key, now) {
      hide IndexOf;
      gone' := gone;
      var i := IndexOf(swept, key);
      var e := swept[i].(count := swept[i].count + 1);
      assert (gone + swept)[|gone| + i := e] == gone + swept[i := e];
    } else {
      gone' := OpenedRefines(o, swept, plain, before, gone, key, now);
      hide Running, Opened;
    }
  }

  /** Sweeps come at any time; hits in time order. */
  ghost predicate InOrder(events: seq<Event>, start: Time) {
    && (events != [] ==> start <= events[0].now)
    && forall i :: 0 <= i < |events| - 1 ==> events[i].now <= events[i + 1].now
  }

  function WindowsAt(o: Options, ws: Windows, events: seq<Event>, n: nat): Windows
    requires n <= |events|
  {
    if n == 0 then ws else After(o, WindowsAt(o, ws, events, n - 1), events[n - 1]).0
  }

  /** The limiter that never sweeps. */
  function UnsweptAt(o: Options, ws: Windows, events: seq<Event>, n: nat): Windows
    requires n <= |events|
  {
    if n == 0 then ws
    else if events[n - 1].Sweep? then UnsweptAt(o, ws, events, n - 1)
    else After(o, UnsweptAt(o, ws, events, n - 1), events[n - 1]).0
  }

  function TimeAt(events: seq<Event>, start: Time, n: nat): Time
    requires n <= |events|
  {
    if n == 0 then start else events[n - 1].now
  }

  lemma {:induction false} RunRefines(o: Options, events: seq<Event>, start: Time, n: nat) returns (gone: Windows)
    requires InOrder(events, start) && n <= |events|
    ensures Ordered(o, UnsweptAt(o, [], events, n), TimeAt(events, start, n))
    ensures Refines(o, WindowsAt(o, [], events, n), UnsweptAt(o, [], events, n), TimeAt(events, start, n), gone)
  {
    hide AfterHit, AfterSweep;
    if n == 0 {
      gone := [];
    } else {
      gone := RunRefines(o, events, start, n - 1);
      var e, plain := events[n - 1], UnsweptAt(o, [], events, n - 1);
      var swept := WindowsAt(o, [], events, n - 1);
      var before := TimeAt(events, start, n - 1);
      assert before <= e.now by { if n > 1 { assert events[n - 2].now <= events[n - 2 + 1].now; } }
      if e.Sweep? {
        gone := SweepRefines(o, swept, plain, before, gone, e.now);
      } else {
        EventKeepsOrdered(o, plain, e, before);
        gone := HitRefines(o, swept, plain, before, gone, e.key, e.now);
      }
    }
  }

  /** Whatever sweeps run in between, every hit is answered as by a limiter that never sweeps. */
  lemma SweepingIsInvisible(o: Options, events: seq<Event>, start: Time, n: nat)
    requires InOrder(events, start) && n < |events| && events[n].Hit?
    ensures After(o, WindowsAt(o, [], events, n), events[n]).1 == After(o, UnsweptAt(o, [], events, n), events[n]).1
  {
    var gone := RunRefines(o, events, start, n);
    assert TimeAt(events, start, n) <= events[n].now by { if n > 0 { assert events[n - 1].now <= events[n - 1 + 1].now; } }
    hide AfterHit;
    var _ := HitRefines(o, WindowsAt(o, [], events, n), UnsweptAt(o, [], events, n), TimeAt(events, start, n), gone, events[n].key, events[n].now);
  }

  /** The map never holds more than maxEntries addresses. */
  lemma SizeIsBounded(o: Options, events: seq<Event>, start: Time, n: nat)
    requires InOrder(events, start) && n <= |events|
    ensures |WindowsAt(o, [], events, n)| <= o.maxEntries
  {
    var gone := RunRefines(o, events, start, n);
  }

  // ---------------------------------------------------------------- the returned wait

  /** The window of `key`, if it has one. */
  function WindowOf(ws: Windows, key: string): Option<Entry> {
    if IndexOf(ws, key) < |ws| then Some(ws[IndexOf(ws, key)]) else None
  }

  lemma WindowIsMember(ws: Windows, key: string, e: Entry)
    requires UniqueKeys(ws)
    ensures WindowOf(ws, key) == Some(e) <==> e in ws && e.key == key
  {
    if e in ws && e.key == key {
      var j :| 0 <= j < |ws| && ws[j] == e;
      assert IndexOf(ws, key) <= j;
    }
  }

  lemma EntriesStay(o: Options, ws: Windows, e: Event, w: Entry)
    requires w in After(o, ws, e).0 && (e.Hit? ==> e.key != w.key)
    ensures w in ws
  {
    if e.Sweep? { SweepKeeps(o, ws, e.now, w); } else { WithoutMembers(ws, e.key); }
    hide Without;
  }

  /** Other addresses' hits and sweeps leave a window as it is or remove it. */
  lemma OthersLeaveWindow(o: Options, ws: Windows, e: Event, before: Time, key: string)
    requires Ordered(o, ws, before) && before <= e.now && (e.Hit? ==> e.key != key)
    ensures WindowOf(After(o, ws, e).0, key).None? || WindowOf(After(o, ws, e).0, key) == WindowOf(ws, key)
  {
    var ws' := After(o, ws, e).0;
    EventKeepsOrdered(o, ws, e, before);
    if WindowOf(ws', key).Some? {
      var w := WindowOf(ws', key).value;
      hide After, WindowOf;
      WindowIsMember(ws', key, w);
      EntriesStay(o, ws, e, w);
      WindowIsMember(ws, key, w);
    }
  }

  lemma {:induction false} WindowStays(o: Options, ws: Windows, events: seq<Event>, start: Time, n: nat, key: string)
    requires Ordered(o, ws, start) && InOrder(events, start) && n <= |events|
    requires forall i :: 0 <= i < n ==> events[i].Hit? ==> events[i].key != key
    ensures Ordered(o, WindowsAt(o, ws, events, n), TimeAt(events, start, n))
    ensures WindowOf(WindowsAt(o, ws, events, n), key).None? || WindowOf(WindowsAt(o, ws, events, n), key) == WindowOf(ws, key)
  {
    hide After, WindowOf;
    if n > 0 {
      WindowStays(o, ws, events, start, n - 1, key);
      assert TimeAt(events, start, n - 1) <= events[n - 1].now by { if n > 1 { assert events[n - 2].now <= events[n - 2 + 1].now; } }
      EventKeepsOrdered(o, WindowsAt(o, ws, events, n - 1), events[n - 1], TimeAt(events, start, n - 1));
      OthersLeaveWindow(o, WindowsAt(o, ws, events, n - 1), events[n - 1], TimeAt(events, start, n - 1), key);
    }
  }

  /** An address that was refused and comes back after the wait it was told, having stayed
      away in between, is served whatever the others did meanwhile. */
  lemma WaitIsEnough(o: Options, ws: Windows, now: Time, key: string, events: seq<Event>, later: Time)
    requires o.max > 0 && Ordered(o, ws, now) && AfterHit(o, ws, key, now).1 > 0
    requires InOrder(events, now) && forall i :: 0 <= i < |events| ==> events[i].Hit? ==> events[i].key != key
    requires later >= now + 1000 * AfterHit(o, ws, key, now).1
    ensures AfterHit(o, WindowsAt(o, AfterHit(o, ws, key, now).0, events, |events|), key, later).1 == 0
  {
    WindowStays(o, ws, events, now, |events|, key);
  }

  /** Retry-After is at least the remaining window and less than a second more. */
  lemma WaitIsTight(o: Options, ws: Windows, key: string, now: Time)
    requires o.max > 0 && AfterHit(o, ws, key, now).1 > 0
    ensures var left := WindowOf(ws, key).value.windowStart + o.windowMs - now;
      WindowOf(ws, key).Some? && 0 < left <= 1000 * AfterHit(o, ws, key, now).1 < left + 1000
  {
  }

  // ---------------------------------------------------------------- the budget

  /** The hits of `key` that were served among the events from `i` up to `j`. */
  function Served(o: Options, ws: Windows, events: seq<Event>, key: string, i: nat, j: nat): nat
    requires i <= j <= |events|
    decreases j
  {
    if i == j then 0
    else
      var one := if IsServed(o, WindowsAt(o, ws, events, j - 1), events[j - 1], key) then 1 else 0;
      Served(o, ws, events, key, i, j - 1) + one
  }

  predicate IsServed(o: Options, ws: Windows, e: Event, key: string) {
    e.Hit? && e.key == key && After(o, ws, e).1 == 0
  }

  /** The event does not evict a running window of `key`. */
  predicate Spares(o: Options, ws: Windows, e: Event, key: string) {
    var w := WindowOf(ws, key);
    w.Some? && !Expired(o, w.value, e.now) ==> WindowOf(After(o, ws, e).0, key).Some?
  }

  ghost predicate Counted(o: Options, ws: Windows) {
    forall e :: e in ws ==> e.count <= o.max
  }

  lemma EventKeepsCounted(o: Options, ws: Windows, e: Event)
    requires Counted(o, ws)
    ensures Counted(o, After(o, ws, e).0)
  {
    var ws' := After(o, ws, e).0;
    forall x | x in ws' ensures x.count <= o.max {
      CountsStay(o, ws, e, x);
    }
  }

  lemma CountsStay(o: Options, ws: Windows, e: Event, x: Entry)
    requires x in After(o, ws, e).0 && Counted(o, ws)
    ensures x.count <= o.max
  {
    if e.Sweep? {
      SweepKeeps(o, ws, e.now, x);
    } else if Running(o, ws, e.key, e.now) {
      assert ws[IndexOf(ws, e.key)] in ws;
      hide Opened;
    } else {
      WithoutMembers(ws, e.key);
      hide Without;
    }
  }

  /** How the window of an address may change while it is not evicted: it counts one more, a
      new one opens, or there is none. */
  predicate Moves(o: Options, w: Option<Entry>, w': Option<Entry>, now: Time, served: nat) {
    || (w.Some? && w' == Some(w.value.(count := w.value.count + served)))
    || ((w.Some? ==> Expired(o, w.value, now)) && w'.Some? && w'.value.windowStart == now && w'.value.count == served)
    || ((w.Some? ==> Expired(o, w.value, now)) && w'.None? && served == 0)
  }

  lemma WindowStep(o: Options, ws: Windows, e: Event, before: Time, key: string)
    requires Ordered(o, ws, before) && before <= e.now && Spares(o, ws, e, key) && o.maxEntries > 0
    ensures Moves(o, WindowOf(ws, key), WindowOf(After(o, ws, e).0, key), e.now, if IsServed(o, ws, e, key) then 1 else 0)
  {
    if e.Hit? && e.key == key {
      OwnHit(o, ws, key, before, e.now);
    } else {
      OthersLeaveWindow(o, ws, e, before, key);
    }
  }

  lemma OwnHit(o: Options, ws: Windows, key: string, before: Time, now: Time)
    requires Ordered(o, ws, before) && before <= now
    ensures var w, w' := WindowOf(ws, key), WindowOf(AfterHit(o, ws, key, now).0, key);
      var served := if AfterHit(o, ws, key, now).1 == 0 then 1 else 0;
      if Running(o, ws, key, now) then w.Some? && w' == Some(w.value.(count := w.value.count + served))
      else (w.Some? ==> Expired(o, w.value, now)) && (o.maxEntries > 0 ==> w' == Some(Entry(key, served, now))) && (o.maxEntries == 0 ==> w'.None?)
  {
    EventKeepsOrdered(o, ws, Hit(key, now), before);
    if Running(o, ws, key, now) {
      var i := IndexOf(ws, key);
      var e := ws[i].(count := ws[i].count + 1);
      WindowIsMember(ws[i := e], key, e);
      assert ws[i := e][i] == e;
    } else {
      OpenedWindow(o, ws, key, now);
    }
  }

  lemma OpenedWindow(o: Options, ws: Windows, key: string, now: Time)
    requires UniqueKeys(Opened(o, ws, key, now))
    ensures o.maxEntries > 0 && |ws| <= o.maxEntries ==> WindowOf(Opened(o, ws, key, now), key) == Some(Entry(key, if o.max > 0 then 1 else 0, now))
    ensures o.maxEntries == 0 && ws == [] ==> Opened(o, ws, key, now) == []
  {
    var e := Entry(key, if o.max > 0 then 1 else 0, now);
    WithoutMembers(ws, key);
    var left := Without(ws, key);
    hide Without;
    if o.maxEntries > 0 && |ws| <= o.maxEntries {
      var after := Opened(o, ws, key, now);
      assert after[|after| - 1] == e;
      WindowIsMember(after, key, e);
    }
  }

  /** Served so far in a stretch that began at `start`: at most the budget of the window that
      was open then, and the count of one opened since. */
  predicate WithinBudget(o: Options, w: Option<Entry>, start: Time, served: nat) {
    if w.None? || w.value.windowStart < start then served <= (if w.None? then o.max else w.value.count)
    else served <= o.max + w.value.count
  }

  lemma BudgetStep(o: Options, w: Option<Entry>, w': Option<Entry>, start: Time, now: Time, before: nat, served: nat)
    requires WithinBudget(o, w, start, before) && Moves(o, w, w', now, served)
    requires start <= now < start + o.windowMs && (w.Some? ==> w.value.count <= o.max)
    ensures WithinBudget(o, w', start, before + served)
  {
  }

  lemma {:induction false} BudgetHolds(o: Options, ws: Windows, events: seq<Event>, start: Time, from: nat, n: nat, key: string)
    requires Ordered(o, ws, start) && Counted(o, ws) && InOrder(events, start) && from <= n <= |events| && o.maxEntries > 0
    requires forall k :: from <= k < n ==> events[k].now < events[from].now + o.windowMs
    requires forall k :: from <= k < n ==> Spares(o, WindowsAt(o, ws, events, k), events[k], key)
    requires from < |events|
    ensures Ordered(o, WindowsAt(o, ws, events, n), TimeAt(events, start, n)) && Counted(o, WindowsAt(o, ws, events, n))
    ensures WithinBudget(o, WindowOf(WindowsAt(o, ws, events, n), key), events[from].now, Served(o, ws, events, key, from, n))
    decreases n
  {
    hide After, WindowOf, Spares, IsServed, Moves, WithinBudget, Ordered, Counted, InOrder;
    if n == from {
      RunKeepsOrdered(o, ws, events, start, n);
      NothingServed(o, WindowOf(WindowsAt(o, ws, events, n), key), events[from].now);
    } else {
      BudgetHolds(o, ws, events, start, from, n - 1, key);
      var before, e := WindowsAt(o, ws, events, n - 1), events[n - 1];
      InOrderStep(events, start, n - 1);
      LaterNow(events, start, from, n - 1);
      EventKeepsOrdered(o, before, e, TimeAt(events, start, n - 1));
      EventKeepsCounted(o, before, e);
      WindowStep(o, before, e, TimeAt(events, start, n - 1), key);
      CountBound(o, before, key);
      BudgetStep(o, WindowOf(before, key), WindowOf(WindowsAt(o, ws, events, n), key), events[from].now, e.now,
                 Served(o, ws, events, key, from, n - 1), if IsServed(o, before, e, key) then 1 else 0);
    }
  }

  lemma NothingServed(o: Options, w: Option<Entry>, start: Time)
    ensures WithinBudget(o, w, start, 0)
  {
  }

  lemma CountBound(o: Options, ws: Windows, key: string)
    requires Counted(o, ws)
    ensures WindowOf(ws, key).Some? ==> WindowOf(ws, key).value.count <= o.max
  {
  }

  lemma InOrderStep(events: seq<Event>, start: Time, n: nat)
    requires InOrder(events, start) && n < |events|
    ensures TimeAt(events, start, n) <= events[n].now
  {
    if n > 0 { assert events[n - 1].now <= events[n - 1 + 1].now; }
  }

  lemma {:induction false} LaterNow(events: seq<Event>, start: Time, from: nat, n: nat)
    requires InOrder(events, start) && from <= n < |events|
    ensures events[from].now <= events[n].now
  {
    if from < n {
      LaterNow(events, start, from, n - 1);
      assert events[n - 1].now <= events[n - 1 + 1].now;
    }
  }

  lemma {:induction false} RunKeepsOrdered(o: Options, ws: Windows, events: seq<Event>, start: Time, n: nat)
    requires Ordered(o, ws, start) && Counted(o, ws) && InOrder(events, start) && n <= |events|
    ensures Ordered(o, WindowsAt(o, ws, events, n), TimeAt(events, start, n)) && Counted(o, WindowsAt(o, ws, events, n))
  {
    hide After;
    if n > 0 {
      RunKeepsOrdered(o, ws, events, start, n - 1);
      InOrderStep(events, start, n - 1);
      EventKeepsOrdered(o, WindowsAt(o, ws, events, n - 1), events[n - 1], TimeAt(events, start, n - 1));
      EventKeepsCounted(o, WindowsAt(o, ws, events, n - 1), events[n - 1]);
    }
  }

  /** What the limit is worth: in any stretch shorter than a window, however it lies across the
      fixed windows and whatever sweeps run, an address is served at most twice its limit,
      unless its running window is evicted for want of room. */
  lemma TwiceTheLimit(o: Options, events: seq<Event>, start: Time, from: nat, n: nat, key: string)
    requires InOrder(events, start) && from < n <= |events| && o.maxEntries > 0
    requires forall k :: from <= k < n ==> events[k].now < events[from].now + o.windowMs
    requires forall k :: from <= k < n ==> Spares(o, WindowsAt(o, [], events, k), events[k], key)
    ensures Served(o, [], events, key, from, n) <= 2 * o.max
  {
    BudgetHolds(o, [], events, start, from, n, key);
    CountBound(o, WindowsAt(o, [], events, n), key);
    hide After, WindowOf, Served;
  }

  /** The count of a running window is what was served since the hit that opened it. */
  lemma {:induction false} CountIsServed(o: Options, events: seq<Event>, start: Time, n: nat, key: string) returns (i: nat)
    requires InOrder(events, start) && n <= |events| && WindowOf(WindowsAt(o, [], events, n), key).Some?
    ensures var w := WindowOf(WindowsAt(o, [], events, n), key).value;
      i < n && events[i].now == w.windowStart && Served(o, [], events, key, i, n) == w.count
  {
    hide After, WindowOf, IsServed, Ordered, Counted, InOrder;
    assert n > 0 by { if n == 0 { EmptyHasNone(key); } }
    RunKeepsOrdered(o, [], events, start, n - 1) by { EmptyIsOrdered(o, start); }
    InOrderStep(events, start, n - 1);
    var before, e := WindowsAt(o, [], events, n - 1), events[n - 1];
    var w, w' := WindowOf(before, key), WindowOf(WindowsAt(o, [], events, n), key);
    var one := if IsServed(o, before, e, key) then 1 else 0;
    WindowOnward(o, before, e, TimeAt(events, start, n - 1), key);
    if w.Some? && w' == Some(w.value.(count := w.value.count + one)) {
      i := CountIsServed(o, events, start, n - 1, key);
    } else {
      i := n - 1;
      assert Served(o, [], events, key, n - 1, n - 1) == 0;
    }
  }

  lemma EmptyHasNone(key: string)
    ensures WindowOf([], key).None?
  {
  }

  lemma EmptyIsOrdered(o: Options, now: Time)
    ensures Ordered(o, [], now) && Counted(o, [])
  {
  }

  lemma WindowOnward(o: Options, ws: Windows, e: Event, before: Time, key: string)
    requires Ordered(o, ws, before) && before <= e.now
    ensures var w, w' := WindowOf(ws, key), WindowOf(After(o, ws, e).0, key);
      var one := if IsServed(o, ws, e, key) then 1 else 0;
      || w'.None?
      || (w.Some? && w' == Some(w.value.(count := w.value.count + one)))
      || (w'.value.windowStart == e.now && w'.value.count == one)
  {
    if e.Hit? && e.key == key {
      OwnHit(o, ws, key, before, e.now);
    } else {
      OthersLeaveWindow(o, ws, e, before, key);
    }
  }

  /** No address is refused early: behind each refusal are as many served hits of the same address
      as the limit allows, within less than a window before it. */
  lemma RefusedOnlyAtTheLimit(o: Options, events: seq<Event>, start: Time, n: nat, key: string) returns (i: nat)
    requires InOrder(events, start) && n < |events| && events[n].Hit? && events[n].key == key
    requires o.max > 0 && After(o, WindowsAt(o, [], events, n), events[n]).1 != 0
    ensures i < n && events[n].now - o.windowMs < events[i].now && Served(o, [], events, key, i, n) >= o.max
  {
    assert WindowOf(WindowsAt(o, [], events, n), key).Some?;
    i := CountIsServed(o, events, start, n, key);
    hide WindowsAt, Served;
  }
}
