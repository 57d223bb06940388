/**
 * The sampler's accounting rules: when an interval is committed, which
 * intervals count as work, and how much work time one commit may add.
 */
module Accounting {
  import opened Categories
  import opened ListOps

  /** Seconds that must have passed since the last commit before the next one. */
  const CheckInterval: real := 1.0
  /** The most work time a single commit may add, in seconds. */
  const WorkTimeDamping: real := 10.0

  const AllTime: string := "ALL TIME"
  const WorkTime: string := "WORK TIME"
  const RenderTime: string := "RENDER TIME"

  /** An interval is committed once strictly more than the check interval has passed. */
  predicate CommitDue(now: real, last: real) {
    now - CheckInterval > last
  }

  /** The first five characters of an event name (all of it when shorter). */
  function Head5(e: string): string {
    if |e| < 5 then e else e[..5]
  }

  /**
   * An event that shows user activity: not the null event, not the window
   * losing focus, and not one of the timer or 3D-mouse polling events.
   */
  predicate IsWorkEvent(e: string) {
    && e != "NONE"
    && e != "WINDOW_DEACTIVATE"
    && Head5(e) != "TIMER"
    && Head5(e) != "NDOF_"
  }

  /** An interval is work when some event recorded in it shows user activity. */
  predicate IsWork(events: seq<string>) {
    exists i :: 0 <= i < |events| && IsWorkEvent(events[i])
  }

  /** Work time credited for an interval: the elapsed time, capped at the damping limit. */
  function WorkCredit(elapsed: real): (w: real)
    ensures w <= elapsed && w <= WorkTimeDamping
    ensures w == elapsed || w == WorkTimeDamping
  {
    if elapsed > WorkTimeDamping then WorkTimeDamping else elapsed
  }

  /** The table after committing an interval of `elapsed` seconds in which `events` were seen. */
  function Commit(cats: seq<Category>, elapsed: real, events: seq<string>, fmt: Formatter): seq<Category> {
    var withAll := AddTime(cats, AllTime, elapsed, fmt);
    if IsWork(events) then AddTime(withAll, WorkTime, WorkCredit(elapsed), fmt) else withAll
  }

  /** Which events arrived, not their order, decides whether an interval is work. */
  lemma IsWorkOrderIndependent(a: seq<string>, b: seq<string>)
    requires multiset(a) == multiset(b)
    ensures IsWork(a) == IsWork(b)
  {
    if IsWork(a) {
      var i :| 0 <= i < |a| && IsWorkEvent(a[i]);
      assert a[i] in multiset(b);
      var j :| 0 <= j < |b| && b[j] == a[i];
    }
    if IsWork(b) {
      var j :| 0 <= j < |b| && IsWorkEvent(b[j]);
      assert b[j] in multiset(a);
      var i :| 0 <= i < |a| && a[i] == b[j];
    }
  }

  /** Buffering an event kind makes the interval work exactly when it already was or that event is work. */
  lemma IsWorkAppend(events: seq<string>, e: string)
    ensures IsWork(AppendIfAbsent(events, e)) <==> IsWork(events) || IsWorkEvent(e)
  {
    var r := AppendIfAbsent(events, e);
    if IsWork(r) && !IsWorkEvent(e) {
      var i :| 0 <= i < |r| && IsWorkEvent(r[i]);
      assert i < |events| && r[i] == events[i];
    }
    if IsWork(events) {
      var i :| 0 <= i < |events| && IsWorkEvent(events[i]);
      assert r[i] == events[i];
    }
    if IsWorkEvent(e) {
      var i :| 0 <= i < |r| && r[i] == e;
    }
  }

  /** An interval that saw only idle, focus-loss, timer or 3D-mouse events is not work. */
  lemma IdleIntervalIsNotWork(events: seq<string>)
    requires forall i :: 0 <= i < |events| ==>
      events[i] == "NONE" || events[i] == "WINDOW_DEACTIVATE" ||
      (|events[i]| >= 5 && (events[i][..5] == "TIMER" || events[i][..5] == "NDOF_"))
    ensures !IsWork(events)
  {
  }

  /** A commit adds exactly the elapsed time to ALL TIME and shows the new total. */
  lemma CommitAllTime(cats: seq<Category>, elapsed: real, events: seq<string>, fmt: Formatter)
    ensures var r := Commit(cats, elapsed, events, fmt);
            && Find(r, AllTime).Some?
            && CatTime(r, AllTime) == CatTime(cats, AllTime) + elapsed
            && r[Find(r, AllTime).value].cattimeStr == fmt(CatTime(r, AllTime))
  {
    var withAll := AddTime(cats, AllTime, elapsed, fmt);
    AddTimeSpec(cats, AllTime, elapsed, fmt);
    if IsWork(events) {
      var r := AddTime(withAll, WorkTime, WorkCredit(elapsed), fmt);
      AddTimeOther(withAll, WorkTime, WorkCredit(elapsed), fmt, AllTime);
      AddTimeSpec(withAll, WorkTime, WorkCredit(elapsed), fmt);
      var k := Find(withAll, AllTime).value;
      assert r[k] == withAll[k];
    }
  }

  /**
   * A work interval adds the damped elapsed time to WORK TIME; any other
   * interval leaves WORK TIME as it was and does not create it.
   */
  lemma CommitWorkTime(cats: seq<Category>, elapsed: real, events: seq<string>, fmt: Formatter)
    ensures var r := Commit(cats, elapsed, events, fmt);
            IsWork(events) ==> Find(r, WorkTime).Some? && CatTime(r, WorkTime) == CatTime(cats, WorkTime) + WorkCredit(elapsed)
    ensures var r := Commit(cats, elapsed, events, fmt);
            !IsWork(events) ==> Find(r, WorkTime) == Find(cats, WorkTime) && CatTime(r, WorkTime) == CatTime(cats, WorkTime)
    ensures var r := Commit(cats, elapsed, events, fmt);
            IsWork(events) ==> Find(r, WorkTime).Some? && r[Find(r, WorkTime).value].cattimeStr == fmt(CatTime(r, WorkTime))
    ensures !IsWork(events) && Find(cats, WorkTime).Some? ==>
            Commit(cats, elapsed, events, fmt)[Find(cats, WorkTime).value] == cats[Find(cats, WorkTime).value]
  {
    var withAll := AddTime(cats, AllTime, elapsed, fmt);
    AddTimeOther(cats, AllTime, elapsed, fmt, WorkTime);
    AddTimeSpec(cats, AllTime, elapsed, fmt);
    AddTimeSpec(withAll, WorkTime, WorkCredit(elapsed), fmt);
  }

  /** A commit changes no category other than ALL TIME and WORK TIME (RENDER TIME among them). */
  lemma CommitOther(cats: seq<Category>, elapsed: real, events: seq<string>, fmt: Formatter, name: string)
    requires name != AllTime && name != WorkTime
    ensures Find(Commit(cats, elapsed, events, fmt), name) == Find(cats, name)
    ensures CatTime(Commit(cats, elapsed, events, fmt), name) == CatTime(cats, name)
    ensures forall j :: 0 <= j < |cats| && cats[j].catname != AllTime && cats[j].catname != WorkTime ==>
      Commit(cats, elapsed, events, fmt)[j] == cats[j]
  {
    var withAll := AddTime(cats, AllTime, elapsed, fmt);
    AddTimeOther(cats, AllTime, elapsed, fmt, name);
    AddTimeOther(withAll, WorkTime, WorkCredit(elapsed), fmt, name);
    AddTimeSpec(cats, AllTime, elapsed, fmt);
    AddTimeSpec(withAll, WorkTime, WorkCredit(elapsed), fmt);
  }

  /**
   * A commit moves no record: every old record keeps its name in its slot,
   * and at most ALL TIME and WORK TIME are appended after them, in that order.
   */
  lemma CommitKeepsOrder(cats: seq<Category>, elapsed: real, events: seq<string>, fmt: Formatter)
    ensures var r := Commit(cats, elapsed, events, fmt);
            && |cats| <= |r| <= |cats| + 2
            && (forall j :: 0 <= j < |cats| ==> r[j].catname == cats[j].catname)
            && (Find(cats, AllTime).None? ==> |cats| < |r| && r[|cats|].catname == AllTime)
            && (forall j :: |cats| <= j < |r| ==> r[j].catname == AllTime || r[j].catname == WorkTime)
  {
    var withAll := AddTime(cats, AllTime, elapsed, fmt);
    AddTimeKeepsSlots(cats, AllTime, elapsed, fmt);
    AddTimeSpec(cats, AllTime, elapsed, fmt);
    AddTimeKeepsSlots(withAll, WorkTime, WorkCredit(elapsed), fmt);
  }

  /** No commit adds more to WORK TIME than it adds to ALL TIME. */
  lemma CommitWorkBounded(cats: seq<Category>, elapsed: real, events: seq<string>, fmt: Formatter)
    requires elapsed >= 0.0
    ensures var r := Commit(cats, elapsed, events, fmt);
            0.0 <= CatTime(r, WorkTime) - CatTime(cats, WorkTime) <= CatTime(r, AllTime) - CatTime(cats, AllTime)
  {
    CommitAllTime(cats, elapsed, events, fmt);
    CommitWorkTime(cats, elapsed, events, fmt);
  }

  /** Committing keeps category names unique. */
  lemma CommitKeepsNamesUnique(cats: seq<Category>, elapsed: real, events: seq<string>, fmt: Formatter)
    requires UniqueNames(cats)
    ensures UniqueNames(Commit(cats, elapsed, events, fmt))
  {
    AddTimeSpec(cats, AllTime, elapsed, fmt);
    AddTimeSpec(AddTime(cats, AllTime, elapsed, fmt), WorkTime, WorkCredit(elapsed), fmt);
  }
}
