/**
 * The `TimeMe` operator: a two-state sampler that, while running, records
 * the kinds of host events it sees, commits elapsed time into the category
 * table once per check interval, brackets render jobs, and writes the
 * report. The host's render-handler lists are fields of the same object.
 */
module TimeMe {
  import opened Wrappers
  import opened ListOps
  import opened Categories
  import opened Accounting
  import opened Report

  /** `status` is unset (None) or 'RUNNING'. */
  datatype Status = Stopped | Running

  /** The operator results the host understands. */
  datatype OperatorResult = Finished | PassThrough | RunningModal

  /** A callback in one of the host's render-handler lists: one of the three the tracker owns, or another add-on's. */
  datatype Handler = InitHandler | CompleteHandler | CancelHandler | OtherHandler(id: string)

  class TimeMe {
    var status: Status
    /** Kinds of the events seen since the last commit. */
    var eventslist: seq<string>
    /** The instant of the last commit, in seconds. */
    var time: real
    /** When the current render job began; absent outside a render. */
    var timeRender: Option<real>
    /** The category table. */
    var cats: seq<Category>
    /** The host's render_init, render_complete and render_cancel handler lists. */
    var renderInit: seq<Handler>
    var renderComplete: seq<Handler>
    var renderCancel: seq<Handler>
    /** The duration formatter used for every display text. */
    const fmt: Formatter

    /**
     * Names are unique, no event kind is buffered twice, and each of the
     * tracker's handlers is registered exactly once while running and not
     * at all while stopped.
     */
    ghost predicate Valid()
      reads this
    {
      && UniqueNames(cats)
      && NoDuplicates(eventslist)
      && Count(renderInit, InitHandler) == (if status == Running then 1 else 0)
      && Count(renderComplete, CompleteHandler) == (if status == Running then 1 else 0)
      && Count(renderCancel, CancelHandler) == (if status == Running then 1 else 0)
    }

    /**
     * The state when the add-on is loaded: stopped, no buffered events, the
     * load instant as the commit time, and the table and handler lists the
     * host already holds.
     */
    constructor (fmt: Formatter, loadTime: real, cats: seq<Category>,
                 renderInit: seq<Handler>, renderComplete: seq<Handler>, renderCancel: seq<Handler>)
      requires UniqueNames(cats)
      requires InitHandler !in renderInit && CompleteHandler !in renderComplete && CancelHandler !in renderCancel
      ensures Valid()
      ensures this.fmt == fmt && status == Stopped && eventslist == [] && time == loadTime && timeRender == None
      ensures this.cats == cats
      ensures this.renderInit == renderInit && this.renderComplete == renderComplete && this.renderCancel == renderCancel
    {
      this.fmt := fmt;
      status := Stopped;
      eventslist := [];
      time := loadTime;
      timeRender := None;
      this.cats := cats;
      this.renderInit := renderInit;
      this.renderComplete := renderComplete;
      this.renderCancel := renderCancel;
    }

    /**
     * `getcat`: the position of the record named `name`, appended with zero
     * seconds when there is none.
     */
    method GetCat(name: string) returns (i: nat)
      requires UniqueNames(cats)
      modifies this
      ensures (cats, i) == GetOrCreate(old(cats), name, fmt)
      ensures UniqueNames(cats)
      ensures status == old(status) && eventslist == old(eventslist) && time == old(time)
      ensures timeRender == old(timeRender)
      ensures renderInit == old(renderInit) && renderComplete == old(renderComplete) && renderCancel == old(renderCancel)
    {
      i := 0;
      while i < |cats|
        invariant i <= |cats|
        invariant forall j :: 0 <= j < i ==> cats[j].catname != name
      {
        if cats[i].catname == name {
          return;
        }
        i := i + 1;
      }
      cats := cats + [NewCategory(name, fmt)];
    }

    /** `getcat(name)`, then add `delta` seconds to it and recompute its display text. */
    method Accumulate(name: string, delta: real)
      requires UniqueNames(cats)
      modifies this
      ensures cats == AddTime(old(cats), name, delta, fmt)
      ensures UniqueNames(cats)
      ensures status == old(status) && eventslist == old(eventslist) && time == old(time)
      ensures timeRender == old(timeRender)
      ensures renderInit == old(renderInit) && renderComplete == old(renderComplete) && renderCancel == old(renderCancel)
    {
      var i := GetCat(name);
      var total := cats[i].cattime + delta;
      cats := cats[i := cats[i].(cattime := total, cattimeStr := fmt(total))];
      AddTimeSpec(old(cats), name, delta, fmt);
    }

    /**
     * One host event of kind `eventType` at instant `now`. While running,
     * the kind is buffered if new; once more than the check interval has
     * passed, the interval is committed (the event just buffered included)
     * and the buffer emptied. Stopped, nothing happens.
     */
    method Modal(now: real, eventType: string) returns (r: OperatorResult)
      requires Valid()
      modifies this
      ensures Valid()
      ensures old(status) == Stopped ==> r == Finished && unchanged(this)
      ensures old(status) == Running ==> r == PassThrough && status == Running
      ensures old(status) == Running ==>
        var seen := AppendIfAbsent(old(eventslist), eventType);
        if CommitDue(now, old(time)) then
          cats == Commit(old(cats), now - old(time), seen, fmt) && time == now && eventslist == []
        else
          cats == old(cats) && time == old(time) && eventslist == seen
      ensures timeRender == old(timeRender)
      ensures renderInit == old(renderInit) && renderComplete == old(renderComplete) && renderCancel == old(renderCancel)
    {
      if status == Stopped {
        return Finished;
      }
      eventslist := AppendIfAbsent(eventslist, eventType);
      if CommitDue(now, time) {
        CommitInterval(now);
      }
      // The source then asks the host to redraw every area; that has no state here.
      return PassThrough;
    }

    /** Whether the buffered events make the current interval work time (the `is_work` loop). */
    method ClassifyBuffer() returns (isWork: bool)
      ensures isWork <==> exists i :: 0 <= i < |eventslist| && IsWorkEvent(eventslist[i])
    {
      isWork := false;
      for i := 0 to |eventslist|
        invariant isWork <==> exists j :: 0 <= j < i && IsWorkEvent(eventslist[j])
      {
        if IsWorkEvent(eventslist[i]) {
          isWork := true;
        }
      }
    }

    /**
     * The commit step of `modal`: the elapsed time goes to ALL TIME, its
     * damped amount to WORK TIME when the buffered events show work, and
     * the commit instant becomes `now` with an empty buffer.
     */
    method CommitInterval(now: real)
      requires UniqueNames(cats)
      modifies this
      ensures cats == Commit(old(cats), now - old(time), old(eventslist), fmt)
      ensures UniqueNames(cats)
      ensures time == now && eventslist == []
      ensures status == old(status) && timeRender == old(timeRender)
      ensures renderInit == old(renderInit) && renderComplete == old(renderComplete) && renderCancel == old(renderCancel)
    {
      ghost var elapsed := now - time;
      ghost var events := eventslist;
      Accumulate(AllTime, now - time);
      ghost var withAll := cats;
      assert withAll == AddTime(old(cats), AllTime, elapsed, fmt);
      var isWork := ClassifyBuffer();
      if isWork {
        var credit := if now - WorkTimeDamping > time then WorkTimeDamping else now - time;
        Accumulate(WorkTime, credit);
        assert IsWork(events) && credit == WorkCredit(elapsed);
        assert Commit(old(cats), elapsed, events, fmt) == AddTime(withAll, WorkTime, credit, fmt);
      } else {
        assert !IsWork(events);
        assert Commit(old(cats), elapsed, events, fmt) == withAll;
      }
      time := now;
      eventslist := [];
    }

    /** `start`: from stopped, take `now` as the commit time, register the render handlers, make sure ALL TIME exists and run. */
    method Start(now: real)
      requires Valid()
      modifies this
      ensures Valid()
      ensures status == Running
      ensures old(status) == Running ==> unchanged(this)
      ensures old(status) == Stopped ==>
        && time == now
        && cats == GetOrCreate(old(cats), AllTime, fmt).0
        && renderInit == AppendIfAbsent(old(renderInit), InitHandler)
        && renderComplete == AppendIfAbsent(old(renderComplete), CompleteHandler)
        && renderCancel == AppendIfAbsent(old(renderCancel), CancelHandler)
        && eventslist == old(eventslist) && timeRender == old(timeRender)
    {
      if status == Stopped {
        ghost var table := cats;
        assert UniqueNames(table);
        time := now;
        renderInit := AppendIfAbsent(renderInit, InitHandler);
        renderComplete := AppendIfAbsent(renderComplete, CompleteHandler);
        renderCancel := AppendIfAbsent(renderCancel, CancelHandler);
        assert Count(renderInit, InitHandler) == 1;
        assert Count(renderComplete, CompleteHandler) == 1;
        assert Count(renderCancel, CancelHandler) == 1;
        assert cats == table;
        var _ := GetCat(AllTime);
        status := Running;
        assert UniqueNames(cats) && NoDuplicates(eventslist);
      }
    }

    /** `execute`: a second run while running finishes at once; otherwise tracking starts and the operator stays modal. */
    method Execute(now: real) returns (r: OperatorResult)
      requires Valid()
      modifies this
      ensures Valid()
      ensures status == Running
      ensures old(status) == Running ==> r == Finished && unchanged(this)
      ensures old(status) == Stopped ==>
        && r == RunningModal
        && time == now
        && cats == GetOrCreate(old(cats), AllTime, fmt).0
        && renderInit == AppendIfAbsent(old(renderInit), InitHandler)
        && renderComplete == AppendIfAbsent(old(renderComplete), CompleteHandler)
        && renderCancel == AppendIfAbsent(old(renderCancel), CancelHandler)
        && eventslist == old(eventslist) && timeRender == old(timeRender)
    {
      if status == Running {
        return Finished;
      }
      Start(now);
      return RunningModal;
    }

    /** `stop`: not running, and each render handler removed from its list if it is there. */
    method Stop()
      requires Valid()
      modifies this
      ensures Valid()
      ensures status == Stopped
      ensures renderInit == RemoveIfPresent(old(renderInit), InitHandler)
      ensures renderComplete == RemoveIfPresent(old(renderComplete), CompleteHandler)
      ensures renderCancel == RemoveIfPresent(old(renderCancel), CancelHandler)
      ensures InitHandler !in renderInit && CompleteHandler !in renderComplete && CancelHandler !in renderCancel
      ensures cats == old(cats) && eventslist == old(eventslist) && time == old(time) && timeRender == old(timeRender)
    {
      status := Stopped;
      renderInit := RemoveIfPresent(renderInit, InitHandler);
      renderComplete := RemoveIfPresent(renderComplete, CompleteHandler);
      renderCancel := RemoveIfPresent(renderCancel, CancelHandler);
      assert Count(renderInit, InitHandler) == 0;
      assert Count(renderComplete, CompleteHandler) == 0;
      assert Count(renderCancel, CancelHandler) == 0;
      assert UniqueNames(cats) && NoDuplicates(eventslist);
    }

    /** `clear`: the table is emptied; nothing else changes. */
    method Clear()
      requires Valid()
      modifies this
      ensures Valid()
      ensures cats == []
      ensures status == old(status) && eventslist == old(eventslist) && time == old(time) && timeRender == old(timeRender)
      ensures renderInit == old(renderInit) && renderComplete == old(renderComplete) && renderCancel == old(renderCancel)
    {
      cats := [];
    }

    /** `onrender_init`: a render job begins at `now`. */
    method OnRenderInit(now: real)
      modifies this
      ensures timeRender == Some(now)
      ensures status == old(status) && eventslist == old(eventslist) && time == old(time) && cats == old(cats)
      ensures renderInit == old(renderInit) && renderComplete == old(renderComplete) && renderCancel == old(renderCancel)
    {
      timeRender := Some(now);
    }

    /** Shared by the complete and cancel handlers: the render's duration goes to RENDER TIME and the start instant is dropped. */
    method EndRender(now: real)
      requires Valid()
      requires timeRender.Some?
      modifies this
      ensures Valid()
      ensures cats == AddTime(old(cats), RenderTime, now - old(timeRender).value, fmt)
      ensures timeRender == None
      ensures status == old(status) && eventslist == old(eventslist) && time == old(time)
      ensures renderInit == old(renderInit) && renderComplete == old(renderComplete) && renderCancel == old(renderCancel)
    {
      Accumulate(RenderTime, now - timeRender.value);
      // The source asks the host to redraw here; that has no state here.
      timeRender := None;
    }

    /** `onrender_complete`: a render job finished at `now`. */
    method OnRenderComplete(now: real)
      requires Valid()
      requires timeRender.Some?
      modifies this
      ensures Valid()
      ensures cats == AddTime(old(cats), RenderTime, now - old(timeRender).value, fmt)
      ensures timeRender == None
      ensures status == old(status) && eventslist == old(eventslist) && time == old(time)
      ensures renderInit == old(renderInit) && renderComplete == old(renderComplete) && renderCancel == old(renderCancel)
    {
      EndRender(now);
    }

    /** `onrender_cancel`: a render job was cancelled at `now`; handled exactly like completion. */
    method OnRenderCancel(now: real)
      requires Valid()
      requires timeRender.Some?
      modifies this
      ensures Valid()
      ensures cats == AddTime(old(cats), RenderTime, now - old(timeRender).value, fmt)
      ensures timeRender == None
      ensures status == old(status) && eventslist == old(eventslist) && time == old(time)
      ensures renderInit == old(renderInit) && renderComplete == old(renderComplete) && renderCancel == old(renderCancel)
    {
      EndRender(now);
    }

    /** `gettext`: the report for the project named `projectName` and the current table. */
    method GetText(projectName: string) returns (text: string)
      ensures text == ReportText(projectName, cats)
    {
      text := Banner + "\n";
      text := text + Title + "\n";
      text := text + Banner + "\n";
      text := text + "PROJECT: " + projectName + "\n";
      assert text == Unlines(Header(projectName)) by {
        var h := Header(projectName);
        UnlinesSnoc([], Banner);
        assert [] + [Banner] == h[..1];
        UnlinesSnoc(h[..1], Title);
        assert h[..1] + [Title] == h[..2];
        UnlinesSnoc(h[..2], Banner);
        assert h[..2] + [Banner] == h[..3];
        UnlinesSnoc(h[..3], ProjectLine(projectName));
        assert h[..3] + [ProjectLine(projectName)] == h;
      }
      assert Header(projectName) + CatLines(cats[..0]) == Header(projectName);
      for i := 0 to |cats|
        invariant text == Unlines(Header(projectName) + CatLines(cats[..i]))
      {
        assert CatLines(cats[..i + 1]) == CatLines(cats[..i]) + [CatLine(cats[i])];
        assert Header(projectName) + CatLines(cats[..i + 1]) == (Header(projectName) + CatLines(cats[..i])) + [CatLine(cats[i])];
        UnlinesSnoc(Header(projectName) + CatLines(cats[..i]), CatLine(cats[i]));
        text := text + (cats[i].catname + ": " + cats[i].cattimeStr) + "\n";
      }
      assert cats[..|cats|] == cats;
      text := text + Banner;
    }
  }
}
