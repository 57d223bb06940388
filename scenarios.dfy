/**
 * Sessions driven through the operator's methods, with what the contracts
 * alone let a caller conclude about the table at each step.
 */
module Scenarios {
  import opened Wrappers
  import opened Categories
  import opened Accounting
  import T = TimeMe

  /** A second run is refused; events before the check interval are only buffered, once each. */
  method DoubleRunAndBuffering(fmt: Formatter) {
    var tm := new T.TimeMe(fmt, 0.0, [], [T.OtherHandler("other add-on")], [], []);
    var r := tm.Execute(0.0);
    assert r == T.RunningModal && tm.renderInit == [T.OtherHandler("other add-on"), T.InitHandler];
    r := tm.Execute(0.2);
    assert r == T.Finished && tm.time == 0.0;
    r := tm.Modal(0.5, "MOUSEMOVE");
    assert r == T.PassThrough && tm.eventslist == ["MOUSEMOVE"];
    r := tm.Modal(0.7, "MOUSEMOVE");
    assert tm.eventslist == ["MOUSEMOVE"];
    r := tm.Modal(1.0, "TIMER");
    assert tm.eventslist == ["MOUSEMOVE", "TIMER"] && tm.time == 0.0;
  }

  /** 1.5 s in which the mouse was clicked count as work in full. */
  method WorkInterval(fmt: Formatter) {
    var tm := new T.TimeMe(fmt, 0.0, [], [], [], []);
    tm.Start(0.0);
    ghost var before := tm.cats;
    var r := tm.Modal(1.5, "LEFTMOUSE");
    ghost var seen: seq<string> := ["LEFTMOUSE"];
    assert Head5(seen[0]) == "LEFTM" && "LEFTM"[0] != 'N' && "LEFTM"[0] != 'T';
    assert IsWorkEvent(seen[0]);
    CommitAllTime(before, 1.5, seen, fmt);
    CommitWorkTime(before, 1.5, seen, fmt);
    assert CatTime(tm.cats, AllTime) == CatTime(before, AllTime) + 1.5;
    assert CatTime(tm.cats, WorkTime) == CatTime(before, WorkTime) + 1.5;
    assert tm.eventslist == [] && tm.time == 1.5;
  }

  /** 1.5 s in which only a timer event arrived: ALL TIME grows, WORK TIME does not. */
  method IdleInterval(fmt: Formatter) {
    var tm := new T.TimeMe(fmt, 0.0, [], [], [], []);
    tm.Start(0.0);
    ghost var before := tm.cats;
    var r := tm.Modal(1.5, "TIMER_REPORT");
    ghost var seen: seq<string> := ["TIMER_REPORT"];
    assert seen[0][..5] == "TIMER";
    IdleIntervalIsNotWork(seen);
    CommitAllTime(before, 1.5, seen, fmt);
    CommitWorkTime(before, 1.5, seen, fmt);
    assert CatTime(tm.cats, AllTime) == CatTime(before, AllTime) + 1.5;
    assert CatTime(tm.cats, WorkTime) == CatTime(before, WorkTime);
  }

  /** 25 s of work in one interval: ALL TIME gets 25 s, WORK TIME only the 10 s damping limit. */
  method DampedWork(fmt: Formatter) {
    var tm := new T.TimeMe(fmt, 0.0, [], [], [], []);
    tm.Start(0.0);
    ghost var before := tm.cats;
    var r := tm.Modal(25.0, "KEY_A");
    ghost var seen: seq<string> := ["KEY_A"];
    assert Head5(seen[0]) == "KEY_A" && "KEY_A"[0] != 'N' && "KEY_A"[0] != 'T';
    assert IsWorkEvent(seen[0]);
    CommitAllTime(before, 25.0, seen, fmt);
    CommitWorkTime(before, 25.0, seen, fmt);
    assert CatTime(tm.cats, AllTime) == CatTime(before, AllTime) + 25.0;
    assert CatTime(tm.cats, WorkTime) == CatTime(before, WorkTime) + 10.0;
  }

  /** A render that starts at 30 s and is cancelled at 35 s adds 5 s to RENDER TIME. */
  method RenderBracket(fmt: Formatter) {
    var tm := new T.TimeMe(fmt, 0.0, [], [], [], []);
    tm.Start(0.0);
    ghost var before := tm.cats;
    tm.OnRenderInit(30.0);
    tm.OnRenderCancel(35.0);
    AddTimeSpec(before, RenderTime, 5.0, fmt);
    assert CatTime(tm.cats, RenderTime) == CatTime(before, RenderTime) + 5.0;
    assert tm.timeRender == None;
  }

  /** Stopped, events change nothing; after a reset the next start recreates ALL TIME at zero. */
  method StopAndReset(fmt: Formatter) {
    var tm := new T.TimeMe(fmt, 0.0, [], [T.OtherHandler("other add-on")], [], []);
    tm.Start(0.0);
    tm.Stop();
    assert tm.renderInit == [T.OtherHandler("other add-on")];
    ghost var before := tm.cats;
    var r := tm.Modal(50.0, "KEY_A");
    assert r == T.Finished && tm.cats == before;
    tm.Clear();
    r := tm.Execute(60.0);
    assert tm.cats == [NewCategory(AllTime, fmt)];
  }
}
