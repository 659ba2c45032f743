/**
 The order in which watcher events, a watcher's `destroy` and completion reports happen.
 */
module CWatcherOrder {
  import opened Wrappers
  import opened Pipelines
  import opened SharedBoxes
  import opened CPipelines
  import opened CPipelineSafety

  type Log = seq<Entry>

  predicate Concerns(e: Entry, w: WatcherId) {
    (e.Destroyed? && e.w == w) || (e.Notified? && e.w == w)
  }

  ghost predicate IsDestroyed(log: Log, w: WatcherId) {
    exists i :: 0 <= i < |log| && log[i].Destroyed? && log[i].w == w
  }

  /** Nothing reaches a watcher after its `destroy`, not even a second one. */
  ghost predicate DestroyIsLast(log: Log) {
    forall i, j :: 0 <= i < j < |log| && log[i].Destroyed? ==> !Concerns(log[j], log[i].w)
  }

  /** A run that let the last reference to a watcher go had not been reported by then. */
  ghost predicate DestroyBeforeReport(log: Log) {
    forall i, j :: 0 <= j < i < |log| && log[i].Destroyed? && log[j].Reported? ==> log[i].cause != Some(log[j].r)
  }

  ghost predicate ReportedOnce(log: Log) {
    forall i, j :: 0 <= i < j < |log| && log[i].Reported? && log[j].Reported? ==> log[i].r != log[j].r
  }

  /** What one run told its watcher, in order. */
  ghost function Notices(log: Log, r: RunId): seq<Notice> {
    if log == [] then []
    else
      var (front, last) := (log[..|log| - 1], log[|log| - 1]);
      Notices(front, r) + if last.Notified? && last.r == r then [last.notice] else []
  }

  ghost predicate Ordered(log: Log) {
    DestroyIsLast(log) && DestroyBeforeReport(log) && ReportedOnce(log)
  }

  ghost predicate IsReported(log: Log, r: RunId) {
    exists i :: 0 <= i < |log| && log[i].Reported? && log[i].r == r
  }

  /** A watcher is there until it is destroyed. */
  ghost predicate WatchersLogged(log: Log, watchers: set<WatcherId>, ids: set<WatcherId>) {
    && (forall w :: w in ids ==> (w in watchers <==> !IsDestroyed(log, w)))
    && (forall w :: IsDestroyed(log, w) ==> w in ids)
    && watchers <= ids
  }

  /** The log agrees with what each run records of itself. */
  ghost predicate RunsLogged(log: Log, runs: map<RunId, Run>) {
    && (forall r :: IsReported(log, r) <==> r in runs && runs[r].reported)
    && (forall i :: 0 <= i < |log| && log[i].Reported? ==>
          log[i].r in runs && runs[log[i].r].outcome == Some(log[i].outcome))
    && (forall i :: 0 <= i < |log| && log[i].Notified? ==>
          log[i].r in runs && runs[log[i].r].watcher == Some(log[i].w))
    && (forall r :: r in runs && runs[r].watcher.Some? ==> Notices(log, r) == runs[r].told)
  }

  ghost predicate LogSound(s: State) {
    && Ordered(s.log)
    && WatchersLogged(s.log, s.watchers.Keys, s.watcherIds)
    && RunsLogged(s.log, s.runs)
  }

  lemma AppendOrdered(log: Log, e: Entry)
    requires Ordered(log)
    requires !e.Reported? ==> !IsDestroyed(log, e.w)
    requires e.Destroyed? && e.cause.Some? ==> !IsReported(log, e.cause.value)
    requires e.Reported? ==> !IsReported(log, e.r)
    ensures Ordered(log + [e])
  {
  }

  lemma AppendDestroyed(log: Log, e: Entry)
    ensures forall w :: IsDestroyed(log + [e], w) <==> IsDestroyed(log, w) || (e.Destroyed? && e.w == w)
    ensures forall r :: IsReported(log + [e], r) <==> IsReported(log, r) || (e.Reported? && e.r == r)
  {
    var all := log + [e];
    assert all[|log|] == e;
    forall w | IsDestroyed(log, w) ensures IsDestroyed(all, w) {
      var i :| 0 <= i < |log| && log[i].Destroyed? && log[i].w == w;
      assert all[i] == log[i];
    }
    forall r | IsReported(log, r) ensures IsReported(all, r) {
      var i :| 0 <= i < |log| && log[i].Reported? && log[i].r == r;
      assert all[i] == log[i];
    }
  }

  lemma AppendNotices(log: Log, e: Entry, r: RunId)
    ensures Notices(log + [e], r) == Notices(log, r) + if e.Notified? && e.r == r then [e.notice] else []
  {
    assert (log + [e])[..|log|] == log;
  }

  lemma {:induction false} NoNotices(log: Log, r: RunId)
    requires forall i :: 0 <= i < |log| && log[i].Notified? ==> log[i].r != r
    ensures Notices(log, r) == []
  {
    if log != [] {
      NoNotices(log[..|log| - 1], r);
    }
  }

  /** A run changes nothing the log speaks of. */
  predicate SameRecord(before: Run, after: Run) {
    && after.watcher == before.watcher && after.reported == before.reported
    && (before.watcher.Some? ==> after.told == before.told)
    && (before.outcome.Some? ==> after.outcome == before.outcome)
  }

  lemma RunUpdated(log: Log, runs: map<RunId, Run>, r: RunId, run: Run)
    requires RunsLogged(log, runs)
    requires if r in runs then SameRecord(runs[r], run) && Sound(runs[r])
             else !run.reported && run.told == []
    ensures RunsLogged(log, runs[r := run])
  {
    if r !in runs {
      NoNotices(log, r);
    }
  }

  lemma DestroyLogged(log: Log, runs: map<RunId, Run>, watchers: set<WatcherId>, ids: set<WatcherId>,
                      w: WatcherId, cause: Option<RunId>)
    requires Ordered(log) && WatchersLogged(log, watchers, ids) && RunsLogged(log, runs) && w in watchers
    requires cause.Some? ==> cause.value in runs && !runs[cause.value].reported
    ensures var log' := log + [Destroyed(w, cause)];
            Ordered(log') && WatchersLogged(log', watchers - {w}, ids) && RunsLogged(log', runs)
  {
    var e := Destroyed(w, cause);
    AppendDestroyed(log, e);
    AppendOrdered(log, e);
    forall r { AppendNotices(log, e, r); }
  }

  lemma {:induction false} NoticeLogged(log: Log, runs: map<RunId, Run>, watchers: set<WatcherId>, ids: set<WatcherId>,
                     r: RunId, notice: Notice)
    requires Ordered(log) && WatchersLogged(log, watchers, ids) && RunsLogged(log, runs)
    requires r in runs && !runs[r].reported
    requires runs[r].watcher.Some? && runs[r].watcher.value in watchers
    ensures var log' := log + [Notified(runs[r].watcher.value, r, notice)];
            && Ordered(log') && WatchersLogged(log', watchers, ids)
            && RunsLogged(log', runs[r := runs[r].(told := runs[r].told + [notice])])
  {
    var e := Notified(runs[r].watcher.value, r, notice);
    AppendDestroyed(log, e);
    AppendOrdered(log, e);
    forall q { AppendNotices(log, e, q); }
  }

  lemma ReportLogged(log: Log, runs: map<RunId, Run>, watchers: set<WatcherId>, ids: set<WatcherId>, r: RunId)
    requires Ordered(log) && WatchersLogged(log, watchers, ids) && RunsLogged(log, runs)
    requires r in runs && !runs[r].reported && runs[r].outcome.Some?
    ensures var log' := log + [Reported(r, runs[r].outcome.value)];
            && Ordered(log') && WatchersLogged(log', watchers, ids)
            && RunsLogged(log', runs[r := runs[r].(reported := true)])
  {
    var e := Reported(r, runs[r].outcome.value);
    AppendDestroyed(log, e);
    AppendOrdered(log, e);
    forall q { AppendNotices(log, e, q); }
  }

  lemma KeysAfterLoss<T>(boxes: Boxes<T>, p: nat)
    requires p in boxes && boxes[p].strong > 0
    ensures Release(boxes, p).Keys == if boxes[p].strong == 1 then boxes.Keys - {p} else boxes.Keys
    ensures DropHandle(boxes, p).Keys == if boxes[p].strong == 1 then boxes.Keys - {p} else boxes.Keys
  {
  }

  /** The events that leave watchers and log alone. */
  predicate Silent(e: Event) {
    !(e.NewWatcher? || e.DestroyWatcher? || e.Execute? || e.Notify? || e.DropWatcher? || e.Report?)
  }

  lemma SilentStep(s: State, e: Event)
    requires Enabled(s, e) && Silent(e)
    ensures Step(s, e).log == s.log && Step(s, e).watchers == s.watchers && Step(s, e).watcherIds == s.watcherIds
    ensures RunOf(e).Some? ==> SameRecord(s.runs[RunOf(e).value], RunAfter(s, e))
  {
    hide DropHandle, Release, GoesWith, DestroyNotice, NoticeEntry, MayFinish, Runnable, Splittable, RetainWatcher,
         Edited, Replaced;
  }

  lemma LogSoundStep(s: State, e: Event)
    requires LogSound(s) && RefsCounted(s) && RunsSound(s) && Enabled(s, e)
    ensures LogSound(Step(s, e))
  {
    RunsAfter(s, e);
    if Silent(e) {
      SilentStep(s, e);
      if RunOf(e).Some? {
        RunUpdated(s.log, s.runs, RunOf(e).value, RunAfter(s, e));
      }
      hide Step, Enabled, RunsLogged, WatchersLogged, Ordered;
    } else {
      LoudStep(s, e);
    }
  }

  lemma LoudStep(s: State, e: Event)
    requires LogSound(s) && RefsCounted(s) && RunsSound(s) && Enabled(s, e) && !Silent(e)
    ensures LogSound(Step(s, e))
  {
    hide RunsLogged, Ordered, Counted, DropHandle, Release, Retain, PipelineRefs;
    match e {
      case NewWatcher(w) =>
        assert s.log == Step(s, e).log && s.runs == Step(s, e).runs;
      case DestroyWatcher(w) =>
        hide WatchersLogged;
        KeysAfterLoss(s.watchers, w);
        if s.watchers[w].strong == 1 {
          DestroyLogged(s.log, s.runs, s.watchers.Keys, s.watcherIds, w, None);
        } else {
          assert s.log + [] == s.log;
        }
      case Execute(r, p, mode, watcher) =>
        hide WatchersLogged;
        RunUpdated(s.log, s.runs, r, NewRun(p, mode, watcher));
        if watcher.Some? {
          RetainKeys(s.watchers, watcher.value);
        }
      case Notify(r, notice) =>
        hide WatchersLogged;
        var run := s.runs[r];
        assert Sound(run);
        if run.watcher.Some? {
          HeldWatcher(s, r);
          NoticeLogged(s.log, s.runs, s.watchers.Keys, s.watcherIds, r, notice);
        } else {
          assert s.log + [] == s.log;
          RunUpdated(s.log, s.runs, r, run.(told := run.told + [notice]));
        }
      case DropWatcher(r) =>
        hide WatchersLogged;
        var run := s.runs[r];
        assert Sound(run);
        RunUpdated(s.log, s.runs, r, run.(holdsWatcher := false));
        KeysAfterLoss(s.watchers, run.watcher.value);
        if s.watchers[run.watcher.value].strong == 1 {
          DestroyLogged(s.log, s.runs[r := run.(holdsWatcher := false)], s.watchers.Keys, s.watcherIds,
                        run.watcher.value, Some(r));
        } else {
          assert s.log + [] == s.log;
        }
      case Report(r) =>
        hide WatchersLogged;
        ReportLogged(s.log, s.runs, s.watchers.Keys, s.watcherIds, r);
    }
  }

  lemma HeldWatcher(s: State, r: RunId)
    requires RefsCounted(s) && r in s.runs && s.runs[r].holdsWatcher && s.runs[r].watcher.Some?
    ensures s.runs[r].watcher.value in s.watchers
  {
    RunRefs(s, r);
  }
}
