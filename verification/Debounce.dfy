/** The debounce map of the file watcher (internal/watcher/fs_worker.go), in milliseconds. */
module Debounce {
  const DEBOUNCE_DELAY := 500
  const RETENTION := 300000

  type Marks = map<string, int>

  /** A file event: whether it is a write or create of a .json file, and the three clock readings of its
      handling: at the check, at the mark, and at the clean-up after the file was processed. */
  datatype FileEvent = FileEvent(name: string, relevant: bool, checkAt: int, markAt: int, cleanAt: int)

  /** Clock readings never go back. */
  predicate Ordered(events: seq<FileEvent>, now: int)
    decreases |events|
  {
    events != [] ==>
      now <= events[0].checkAt <= events[0].markAt <= events[0].cleanAt && Ordered(events[1..], events[0].cleanAt)
  }

  predicate Suppressed(m: Marks, e: FileEvent) {
    e.name in m && e.checkAt - m[e.name] < DEBOUNCE_DELAY
  }

  function Pruned(m: Marks, now: int): Marks {
    map f | f in m && !(m[f] < now - RETENTION) :: m[f]
  }

  predicate Processes(m: Marks, e: FileEvent) {
    e.relevant && !Suppressed(m, e)
  }

  function Marked(m: Marks, e: FileEvent): Marks {
    if Processes(m, e) then m[e.name := e.markAt] else m
  }

  /** The decisions of a loop that never prunes. */
  function Decisions(m: Marks, events: seq<FileEvent>): seq<bool>
    decreases |events|
  {
    if events == [] then []
    else [Processes(m, events[0])] + Decisions(Marked(m, events[0]), events[1..])
  }

  /** What pruning may have lost: only marks that are past the debounce delay for good. */
  ghost predicate Covers(pruned: Marks, full: Marks, now: int) {
    && (forall f :: f in pruned ==> f in full && pruned[f] == full[f])
    && (forall f :: f in full && f !in pruned ==> full[f] + RETENTION < now)
    && (forall f :: f in full ==> full[f] <= now)
  }

  lemma {:induction false} DecisionLength(m: Marks, events: seq<FileEvent>)
    ensures |Decisions(m, events)| == |events|
    decreases |events|
  {
    if events == [] {
    } else {
      var e := events[0];
      DecisionLength(Marked(m, e), events[1..]);
    }
  }

  /** After a mark, the next processing of the file waits for the delay. */
  lemma {:induction false} MarkHoldsOff(m: Marks, events: seq<FileEvent>, now: int, name: string, mark: int, l: nat)
    requires Ordered(events, now) && l < |events| && |Decisions(m, events)| == |events|
    requires name in m && m[name] >= mark && m[name] <= now
    requires Decisions(m, events)[l] && events[l].name == name
    ensures events[l].checkAt - mark >= DEBOUNCE_DELAY
    decreases |events|
  {
    var e := events[0];
    if l == 0 {
    } else {
      var m' := Marked(m, e);
      DecisionLength(m', events[1..]);
      assert Decisions(m', events[1..]) == Decisions(m, events)[1..];
      MarkHoldsOff(m', events[1..], e.cleanAt, name, mark, l - 1);
    }
  }

  lemma {:induction false} DecisionsAreSpaced(m: Marks, events: seq<FileEvent>, now: int, k: nat, l: nat)
    requires Ordered(events, now) && k < l < |events| && |Decisions(m, events)| == |events|
    requires Decisions(m, events)[k] && Decisions(m, events)[l] && events[k].name == events[l].name
    ensures events[l].checkAt - events[k].markAt >= DEBOUNCE_DELAY
    decreases |events|
  {
    var e := events[0];
    var m' := Marked(m, e);
    DecisionLength(m', events[1..]);
    assert Decisions(m', events[1..]) == Decisions(m, events)[1..];
    if k > 0 {
      DecisionsAreSpaced(m', events[1..], e.cleanAt, k - 1, l - 1);
    } else {
      MarkHoldsOff(m', events[1..], e.cleanAt, e.name, e.markAt, l - 1);
    }
  }

  /** Two processings of one file are at least the debounce delay apart. */
  lemma AllSpaced(events: seq<FileEvent>)
    requires events != [] ==> Ordered(events, events[0].checkAt)
    ensures var processed := Decisions(map[], events);
            |processed| == |events|
            && forall k, l :: 0 <= k < l < |events| && processed[k] && processed[l] && events[k].name == events[l].name
                 ==> events[l].checkAt - events[k].markAt >= DEBOUNCE_DELAY
  {
    DecisionLength(map[], events);
    var processed := Decisions(map[], events);
    forall k, l | 0 <= k < l < |events| && processed[k] && processed[l] && events[k].name == events[l].name
      ensures events[l].checkAt - events[k].markAt >= DEBOUNCE_DELAY
    {
      DecisionsAreSpaced(map[], events, events[0].checkAt, k, l);
    }
  }

  /** A pruned map decides like the full map, and keeps covering it, pruned again or not. */
  lemma PruningIsInvisible(pruned: Marks, full: Marks, now: int, e: FileEvent)
    requires Covers(pruned, full, now) && now <= e.checkAt <= e.markAt <= e.cleanAt
    ensures Processes(pruned, e) <==> Processes(full, e)
    ensures var pruned' := if Processes(full, e) then Pruned(Marked(pruned, e), e.cleanAt) else pruned;
            Covers(pruned', Marked(full, e), e.cleanAt)
  {
  }

  /** Marks made by later events, seen from one event earlier. */
  lemma ShiftByOne(processed: seq<bool>, later: seq<bool>, events: seq<FileEvent>, rest: seq<FileEvent>, k: nat)
    requires 0 < k < |events| == |processed| && |rest| == |later| == |events| - 1
    requires forall j :: 0 <= j < |rest| ==> rest[j] == events[j + 1] && later[j] == processed[j + 1]
    ensures (forall j :: 0 <= j < k && processed[j] && events[j].name == events[k].name ==>
               events[k].checkAt - events[j].markAt >= 500)
       <==> (processed[0] && events[0].name == events[k].name ==> events[k].checkAt - events[0].markAt >= 500)
            && forall j :: 0 <= j < k - 1 && later[j] && rest[j].name == rest[k - 1].name ==>
                 rest[k - 1].checkAt - rest[j].markAt >= 500
  {
    if forall j :: 0 <= j < k - 1 && later[j] && rest[j].name == rest[k - 1].name ==>
         rest[k - 1].checkAt - rest[j].markAt >= 500 {
      forall j | 0 < j < k && processed[j] && events[j].name == events[k].name
        ensures events[k].checkAt - events[j].markAt >= 500
      {
        assert later[j - 1] && rest[j - 1] == events[j] && rest[k - 1] == events[k];
      }
    }
  }

  /** Exactly which events are processed, for a loop that starts with marks no later than its clock. */
  lemma {:induction false} DecisionsExactly(m: Marks, events: seq<FileEvent>, now: int, k: nat)
    requires Ordered(events, now) && k < |events| && |Decisions(m, events)| == |events|
    requires forall f :: f in m ==> m[f] <= now
    ensures var processed := Decisions(m, events);
            processed[k] <==>
              && events[k].relevant
              && (events[k].name in m ==> events[k].checkAt - m[events[k].name] >= 500)
              && forall j :: 0 <= j < k && processed[j] && events[j].name == events[k].name ==>
                   events[k].checkAt - events[j].markAt >= 500
    decreases k
  {
    var e, rest := events[0], events[1..];
    var processed, m' := Decisions(m, events), Marked(m, e);
    if k == 0 {
    } else {
      DecisionLength(m', rest);
      DecisionsExactly(m', rest, e.cleanAt, k - 1);
      var later := Decisions(m', rest);
      assert processed == [Processes(m, e)] + later;
      assert forall j :: 0 <= j < |rest| ==> rest[j] == events[j + 1] && later[j] == processed[j + 1];
      ShiftByOne(processed, later, events, rest, k);
    }
  }

  lemma AllDecided(events: seq<FileEvent>)
    requires events != [] ==> Ordered(events, events[0].checkAt)
    ensures var processed := Decisions(map[], events);
            && |processed| == |events|
            && forall k :: 0 <= k < |events| ==>
                 (processed[k] <==>
                    && events[k].relevant
                    && forall j :: 0 <= j < k && processed[j] && events[j].name == events[k].name ==>
                         events[k].checkAt - events[j].markAt >= 500)
  {
    DecisionLength(map[], events);
    forall k | 0 <= k < |events|
      ensures var processed := Decisions(map[], events);
              processed[k] <==>
                && events[k].relevant
                && forall j :: 0 <= j < k && processed[j] && events[j].name == events[k].name ==>
                     events[k].checkAt - events[j].markAt >= 500
    {
      DecisionsExactly(map[], events, events[0].checkAt, k);
    }
  }

  class FileWatcher {
    var processedFiles: Marks

    constructor ()
      ensures processedFiles == map[]
    {
      processedFiles := map[];
    }

    method CleanupProcessedFiles(now: int)
      modifies this
      ensures processedFiles == Pruned(old(processedFiles), now)
      ensures forall f :: f in processedFiles <==> f in old(processedFiles) && now - old(processedFiles)[f] <= 300000
    {
      var cutoff := now - RETENTION;
      var rest := processedFiles.Keys;
      while rest != {}
        invariant rest <= old(processedFiles).Keys
        invariant processedFiles ==
          map f | f in old(processedFiles) && (f in rest || !(old(processedFiles)[f] < cutoff))
            :: old(processedFiles)[f]
        decreases rest
      {
        var file :| file in rest;
        if processedFiles[file] < cutoff {
          processedFiles := processedFiles - {file};
        }
        rest := rest - {file};
      }
    }

    /** One turn of the loop. */
    method HandleEvent(event: FileEvent) returns (processed: bool)
      modifies this
      ensures processed == Processes(old(processedFiles), event)
      ensures processed
         <==> event.relevant
              && (event.name in old(processedFiles) ==> event.checkAt - old(processedFiles)[event.name] >= 500)
      ensures processedFiles ==
              if processed then Pruned(Marked(old(processedFiles), event), event.cleanAt) else old(processedFiles)
    {
      if !event.relevant {
        return false;
      }
      if event.name in processedFiles {
        if event.checkAt - processedFiles[event.name] < DEBOUNCE_DELAY {
          return false;
        }
      }
      processedFiles := processedFiles[event.name := event.markAt];
      CleanupProcessedFiles(event.cleanAt);
      return true;
    }

    /** The event loop: it decides as if it never pruned, and it processes exactly the relevant events that
        come at least 500 ms after every mark the same file got before. */
    method WatchLoop(events: seq<FileEvent>) returns (processed: seq<bool>)
      requires processedFiles == map[]
      requires events != [] ==> Ordered(events, events[0].checkAt)
      modifies this
      ensures processed == Decisions(map[], events) && |processed| == |events|
      ensures forall k :: 0 <= k < |events| ==>
                (processed[k] <==>
                   && events[k].relevant
                   && forall j :: 0 <= j < k && processed[j] && events[j].name == events[k].name ==>
                        events[k].checkAt - events[j].markAt >= 500)
      ensures forall k, l :: 0 <= k < l < |events| && processed[k] && processed[l] && events[k].name == events[l].name
                ==> events[l].checkAt - events[k].markAt >= DEBOUNCE_DELAY
    {
      processed := [];
      ghost var full: Marks := map[];
      ghost var now := if events != [] then events[0].checkAt else 0;
      assert events[0..] == events;
      assert Covers(processedFiles, full, now);
      for i := 0 to |events|
        invariant |processed| == i
        invariant Ordered(events[i..], now)
        invariant Covers(processedFiles, full, now)
        invariant Decisions(map[], events) == processed + Decisions(full, events[i..])
      {
        hide Covers, Pruned, Processes, Marked;
        assert events[i..][1..] == events[i + 1..];
        PruningIsInvisible(processedFiles, full, now, events[i]);
        var decision := HandleEvent(events[i]);
        full, now := Marked(full, events[i]), events[i].cleanAt;
        processed := processed + [decision];
      }
      assert events[|events|..] == [] && processed + [] == processed;
      AllSpaced(events);
      AllDecided(events);
    }
  }
}
