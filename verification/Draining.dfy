/** Exactly when deliveries and served passes can bring everything to rest. */
module Draining {
  import opened Wrappers
  import opened KongFiles
  import opened ClassMatching
  import opened Protocol
  import opened Machine
  import opened Timelines
  import opened Effects
  import opened Agreement
  import opened Lifecycle
  import opened Deletion
  import opened Progress

  // ---------------------------------------------------------------- one key at a time

  lemma {:induction false} ExecAppends(cls: string, s: State, first: seq<Step>, second: seq<Step>)
    ensures Exec(cls, s, first + second) == Exec(cls, Exec(cls, s, first), second)
    decreases |second|
  {
    if second == [] {
      assert first + second == first;
    } else {
      var before, step := second[..|second| - 1], second[|second| - 1];
      ExecAppends(cls, s, first, before);
      assert (first + second)[..|first + second| - 1] == first + before;
    }
  }

  lemma ExecFirst(cls: string, s: State, step: Step, rest: seq<Step>)
    ensures Exec(cls, s, [step] + rest) == Exec(cls, Next(cls, s, step), rest)
  {
    ExecAppends(cls, s, [step], rest);
    assert [step][..0] == [];
  }

  ghost predicate SameElsewhere(s: State, s': State, key: string) {
    s'.clock == s.clock &&
    forall k | k != key :: TimelineOf(s'.site.api, k) == TimelineOf(s.site.api, k) && (k in s'.queue <==> k in s.queue)
  }

  lemma HelpfulElsewhere(cls: string, s: State, step: Step)
    requires Legal(s.site.api) && Helpful(step, s.clock)
    ensures Legal(Next(cls, s, step).site.api) && SameElsewhere(s, Next(cls, s, step), step.key)
  {
    LegalStep(cls, s, step);
    if step.Pass? && Enabled(s, step) {
      PassHasFacts(cls, s, step.key, step.env);
      PassShowsElsewhere(cls, s, Next(cls, s, step), step.key, step.env);
    } else if step.Deliver? && Enabled(s, step) {
      DeliverMoves(cls, s, step.key, step.position);
    }
  }

  lemma PassShowsElsewhere(cls: string, s: State, s': State, key: string, env: Env)
    requires PassFacts(cls, s, s', key, env) && env.now <= s.clock
    ensures SameElsewhere(s, s', key)
  {
    forall k | k != key
      ensures TimelineOf(s'.site.api, k) == TimelineOf(s.site.api, k) && (k in s'.queue <==> k in s.queue)
    {
      PassElsewhere(cls, s, s', key, env, k);
    }
  }

  /** A key whose current version is not blocked is worked off, productive step by productive step. */
  lemma {:induction false} WorkOff(cls: string, s: State, key: string) returns (steps: seq<Step>)
    requires Legal(s.site.api) && !CurrentBlocked(cls, s, key, s.clock)
    ensures AllHelpful(steps, s.clock)
    ensures var s' := Exec(cls, s, steps); Legal(s'.site.api) && KeyQuiet(s', key) && SameElsewhere(s, s', key)
    decreases Work(cls, s, key)
  {
    WorkLeftMeansStep(cls, s, key);
    if KeyQuiet(s, key) {
      steps := [];
    } else {
      var deliver := Deliver(key, |TimelineOf(s.site.api, key).versions| - 1);
      var step := if Productive(s, deliver, key) then deliver else Pass(key, ServedAt(s.clock));
      var s' := Next(cls, s, step);
      HelpfulElsewhere(cls, s, step);
      StepAndWork(cls, s, step, s.clock, key);
      HelpfulKeepsCurrent(cls, s, step, key);
      KeptIsNotBlocked(cls, s, s', key, s.clock);
      var rest := WorkOff(cls, s', key);
      steps := [step] + rest;
      ExecFirst(cls, s, step, rest);
    }
  }

  lemma RestingPass(cls: string, s: State, key: string)
    requires key in s.queue
    requires Reconcile(cls, s.site, key, ServedAt(s.clock)) == Outcome(s.site, Done, [])
    ensures Next(cls, s, Pass(key, ServedAt(s.clock))) == s.(queue := s.queue - {key})
  {
    assert s.log + Tag(key, []) == s.log;
  }

  /** While the key shows no object, served passes take it off the queue. */
  lemma CleanOut(cls: string, s: State, key: string) returns (steps: seq<Step>)
    requires Seen(s.site.api, key).None?
    ensures AllHelpful(steps, s.clock)
    ensures var s' := Exec(cls, s, steps);
            s'.site.api == s.site.api && s'.queue == s.queue - {key} && s'.clock == s.clock
  {
    var pass := Pass(key, ServedAt(s.clock));
    if key !in s.queue {
      steps := [];
    } else if key !in s.site.cache {
      RestingPass(cls, s, key);
      steps := [pass] + [];
      ExecFirst(cls, s, pass, []);
    } else {
      CleanUpPass(cls, s, key);
      RestingPass(cls, Next(cls, s, pass), key);
      steps := [pass] + ([pass] + []);
      ExecFirst(cls, s, pass, [pass] + []);
      ExecFirst(cls, Next(cls, s, pass), pass, []);
    }
  }

  lemma CleanUpPass(cls: string, s: State, key: string)
    requires key in s.queue && Seen(s.site.api, key).None? && key in s.site.cache
    ensures var s' := Next(cls, s, Pass(key, ServedAt(s.clock)));
            s'.site.api == s.site.api && s'.queue == s.queue && s'.clock == s.clock &&
            Reconcile(cls, s'.site, key, ServedAt(s.clock)) == Outcome(s'.site, Done, [])
  {
    TwoPassesSuffice(cls, s.site, key, ServedAt(s.clock), ServedAt(s.clock));
  }

  // ---------------------------------------------------------------- exactly when quiet can be reached

  /** The current version is blocked, and its key is queued or cannot but be queued when it is shown: only the
      creation of an object of another class goes unnoticed, so the informer must be able to show the key
      without an object first. */
  predicate Stuck(cls: string, s: State, key: string) {
    var t := TimelineOf(s.site.api, key);
    CurrentBlocked(cls, s, key, s.clock) &&
    if Lag(s.site.api, key) == 0 then key in s.queue
    else MatchesClass(Current(s.site.api, key).value, cls) || AllSome(t.versions[t.seen..])
  }

  predicate AllSome(versions: seq<Option<KongFile>>) {
    forall i :: 0 <= i < |versions| ==> versions[i].Some?
  }

  lemma AllSomeLater(versions: seq<Option<KongFile>>, n: nat)
    requires n <= |versions| && AllSome(versions)
    ensures AllSome(versions[n..])
  {
  }

  lemma StuckIsNotQuiet(cls: string, s: State, key: string)
    requires Stuck(cls, s, key)
    ensures !Quiet(s)
  {
    QuietByKey(s);
    assert !KeyQuiet(s, key);
  }

  lemma StuckAfterPass(cls: string, s: State, s': State, key: string, now: nat)
    requires PassFacts(cls, s, s', key, ServedAt(now)) && now == s.clock && Stuck(cls, s, key)
    ensures Stuck(cls, s', key)
  {
    if Lag(s.site.api, key) > 0 {
      PassBehindKeepsWork(cls, s, s', key, ServedAt(now));
    } else {
      BlankPathIffUnknownKind(Current(s.site.api, key).value.spec);
    }
  }

  lemma StuckAfterDeliver(cls: string, s: State, key: string, position: nat)
    requires Enabled(s, Deliver(key, position)) && Stuck(cls, s, key)
    ensures Stuck(cls, Next(cls, s, Deliver(key, position)), key)
  {
    DeliverMoves(cls, s, key, position);
    var versions, seen := s.site.api[key].versions, s.site.api[key].seen;
    if AllSome(versions[seen..]) {
      AllSomeLater(versions[seen..], position - seen);
      assert versions[seen..][position - seen..] == versions[position..];
      assert versions[seen..][0] == versions[seen];
    }
  }

  /** What is stuck stays stuck, whatever is delivered and served. */
  lemma {:induction false} StuckForNow(cls: string, s: State, steps: seq<Step>, key: string)
    requires Legal(s.site.api) && AllHelpful(steps, s.clock) && Stuck(cls, s, key)
    ensures var s' := Exec(cls, s, steps); Legal(s'.site.api) && s'.clock == s.clock && Stuck(cls, s', key)
  {
    if steps == [] {
    } else {
      var before, step := steps[..|steps| - 1], steps[|steps| - 1];
      assert step in steps;
      StuckForNow(cls, s, before, key);
      StuckStep(cls, Exec(cls, s, before), step, key);
    }
  }

  lemma StuckElsewhere(cls: string, s: State, s': State, key: string)
    requires Stuck(cls, s, key) && s'.clock == s.clock
    requires TimelineOf(s'.site.api, key) == TimelineOf(s.site.api, key) && (key in s.queue ==> key in s'.queue)
    ensures Stuck(cls, s', key)
  {
  }

  lemma StuckStep(cls: string, s: State, step: Step, key: string)
    requires Legal(s.site.api) && Helpful(step, s.clock) && Stuck(cls, s, key)
    ensures var s' := Next(cls, s, step); Legal(s'.site.api) && s'.clock == s.clock && Stuck(cls, s', key)
  {
    HelpfulElsewhere(cls, s, step);
    if step.key != key || !Enabled(s, step) {
      StuckElsewhere(cls, s, Next(cls, s, step), key);
    } else {
      if step.Deliver? {
        StuckAfterDeliver(cls, s, key, step.position);
      } else {
        PassHasFacts(cls, s, key, step.env);
        StuckAfterPass(cls, s, Next(cls, s, step), key, step.env.now);
      }
    }
  }

  lemma ShowUnnoticed(cls: string, s: State, key: string, position: nat)
    requires Legal(s.site.api) && key in s.site.api && Seen(s.site.api, key).None? && key !in s.queue
    requires s.site.api[key].seen < position == |s.site.api[key].versions| - 1
    requires Current(s.site.api, key).Some? && !MatchesClass(Current(s.site.api, key).value, cls)
    ensures var s' := Next(cls, s, Deliver(key, position));
            Legal(s'.site.api) && KeyQuiet(s', key) && SameElsewhere(s, s', key)
  {
    DeliverMoves(cls, s, key, position);
    HelpfulElsewhere(cls, s, Deliver(key, position));
  }

  /** A blocked object of another class can be shown unnoticed after its key was shown without an object. */
  lemma SlipPast(cls: string, s: State, key: string) returns (steps: seq<Step>)
    requires Legal(s.site.api) && Seen(s.site.api, key).None? && Lag(s.site.api, key) > 0
    requires Current(s.site.api, key).Some? && !MatchesClass(Current(s.site.api, key).value, cls)
    ensures AllHelpful(steps, s.clock)
    ensures var s' := Exec(cls, s, steps); Legal(s'.site.api) && KeyQuiet(s', key) && SameElsewhere(s, s', key)
  {
    var first := CleanOut(cls, s, key);
    var clean := Exec(cls, s, first);
    var last := Deliver(key, |TimelineOf(s.site.api, key).versions| - 1);
    ShowUnnoticed(cls, clean, key, last.position);
    steps := first + ([last] + []);
    ExecAppends(cls, s, first, [last] + []);
    ExecFirst(cls, clean, last, []);
  }

  lemma ShowGap(cls: string, s: State, key: string, position: nat)
    requires Legal(s.site.api) && key in s.site.api
    requires s.site.api[key].seen < position < |s.site.api[key].versions| && s.site.api[key].versions[position].None?
    requires Current(s.site.api, key).Some?
    ensures var s' := Next(cls, s, Deliver(key, position));
            Legal(s'.site.api) && Seen(s'.site.api, key).None? && Lag(s'.site.api, key) > 0 &&
            Current(s'.site.api, key) == Current(s.site.api, key) && SameElsewhere(s, s', key)
  {
    DeliverMoves(cls, s, key, position);
    HelpfulElsewhere(cls, s, Deliver(key, position));
  }

  lemma SlipThrough(cls: string, s: State, key: string, position: nat) returns (steps: seq<Step>)
    requires Legal(s.site.api) && key in s.site.api
    requires s.site.api[key].seen < position < |s.site.api[key].versions| && s.site.api[key].versions[position].None?
    requires Current(s.site.api, key).Some? && !MatchesClass(Current(s.site.api, key).value, cls)
    ensures AllHelpful(steps, s.clock)
    ensures var s' := Exec(cls, s, steps); Legal(s'.site.api) && KeyQuiet(s', key) && SameElsewhere(s, s', key)
  {
    var step := Deliver(key, position);
    ShowGap(cls, s, key, position);
    var rest := SlipPast(cls, Next(cls, s, step), key);
    steps := [step] + rest;
    ExecFirst(cls, s, step, rest);
  }

  lemma GapAhead(cls: string, s: State, key: string) returns (position: nat)
    requires CurrentBlocked(cls, s, key, s.clock) && !Stuck(cls, s, key) && Lag(s.site.api, key) > 0
    ensures TimelineOf(s.site.api, key).seen <= position < |TimelineOf(s.site.api, key).versions|
    ensures TimelineOf(s.site.api, key).versions[position].None?
    ensures !MatchesClass(Current(s.site.api, key).value, cls)
  {
    var t := TimelineOf(s.site.api, key);
    var i :| 0 <= i < |t.versions[t.seen..]| && t.versions[t.seen..][i].None?;
    position := t.seen + i;
  }

  lemma Unblock(cls: string, s: State, key: string) returns (steps: seq<Step>)
    requires Legal(s.site.api) && CurrentBlocked(cls, s, key, s.clock) && !Stuck(cls, s, key)
    ensures AllHelpful(steps, s.clock)
    ensures var s' := Exec(cls, s, steps); Legal(s'.site.api) && KeyQuiet(s', key) && SameElsewhere(s, s', key)
  {
    if Lag(s.site.api, key) == 0 {
      steps := [];
    } else {
      var position := GapAhead(cls, s, key);
      if position == TimelineOf(s.site.api, key).seen {
        steps := SlipPast(cls, s, key);
      } else {
        steps := SlipThrough(cls, s, key, position);
      }
    }
  }

  function Busy(s: State): set<string> {
    set key | key in s.site.api.Keys + s.queue && !KeyQuiet(s, key)
  }

  lemma BusyElsewhere(s: State, s': State, key: string)
    requires key in Busy(s) && KeyQuiet(s', key) && SameElsewhere(s, s', key)
    ensures Busy(s') < Busy(s)
  {
    forall k | k in Busy(s') ensures k in Busy(s) {
      assert !KeyQuiet(s, k);
    }
    assert key !in Busy(s');
  }

  lemma NoneStuckElsewhere(cls: string, s: State, s': State, key: string)
    requires forall k :: !Stuck(cls, s, k)
    requires KeyQuiet(s', key) && SameElsewhere(s, s', key)
    ensures forall k :: !Stuck(cls, s', k)
  {
    forall k ensures !Stuck(cls, s', k) {
      assert !Stuck(cls, s, k);
    }
  }

  lemma Settle(cls: string, s: State, key: string) returns (steps: seq<Step>)
    requires Legal(s.site.api) && !Stuck(cls, s, key)
    ensures AllHelpful(steps, s.clock)
    ensures var s' := Exec(cls, s, steps); Legal(s'.site.api) && KeyQuiet(s', key) && SameElsewhere(s, s', key)
  {
    if CurrentBlocked(cls, s, key, s.clock) {
      steps := Unblock(cls, s, key);
    } else {
      steps := WorkOff(cls, s, key);
    }
  }

  lemma {:induction false} Drain(cls: string, s: State) returns (steps: seq<Step>)
    requires Legal(s.site.api) && forall key :: !Stuck(cls, s, key)
    ensures AllHelpful(steps, s.clock) && Quiet(Exec(cls, s, steps))
    decreases Busy(s)
  {
    if key :| key in Busy(s) {
      var first := Settle(cls, s, key);
      var s' := Exec(cls, s, first);
      BusyElsewhere(s, s', key);
      NoneStuckElsewhere(cls, s, s', key);
      var rest := Drain(cls, s');
      steps := first + rest;
      ExecAppends(cls, s, first, rest);
    } else {
      steps := [];
      forall key ensures KeyQuiet(s, key) {
        assert key !in Busy(s);
      }
      QuietByKey(s);
    }
  }

  predicate QuietAfter(cls: string, s: State, steps: seq<Step>) {
    AllHelpful(steps, s.clock) && Quiet(Exec(cls, s, steps))
  }

  /** Exactly when deliveries and served passes can bring everything to rest without waiting: when no key is
      stuck. */
  lemma QuietIsReachedIff(cls: string, s: State)
    requires Legal(s.site.api)
    ensures (exists steps :: QuietAfter(cls, s, steps)) <==> forall key :: !Stuck(cls, s, key)
  {
    if forall key :: !Stuck(cls, s, key) {
      var steps := Drain(cls, s);
      assert QuietAfter(cls, s, steps);
    } else {
      var key :| Stuck(cls, s, key);
      forall steps ensures !QuietAfter(cls, s, steps) {
        if AllHelpful(steps, s.clock) {
          StuckForNow(cls, s, steps, key);
          StuckIsNotQuiet(cls, Exec(cls, s, steps), key);
        }
      }
    }
  }
}
