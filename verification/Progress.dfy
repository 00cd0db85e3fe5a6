/** Progress: how much work is left for a key, and that every run of deliveries and served passes does it. */
module Progress {
  import opened Wrappers
  import opened KongFiles
  import opened ClassMatching
  import opened Protocol
  import opened Machine
  import opened Timelines
  import opened Effects
  import opened Agreement
  import opened Lifecycle

  // ---------------------------------------------------------------- helpful steps

  /** The informer delivers, or a pass runs with every call served, no later than the horizon. */
  predicate Helpful(step: Step, horizon: nat) {
    step.Deliver? || (step.Pass? && step.env == ServedAt(step.env.now) && step.env.now <= horizon)
  }

  predicate AllHelpful(steps: seq<Step>, horizon: nat) {
    forall step :: step in steps ==> Helpful(step, horizon)
  }

  /** A pass on this object cannot be done at the given time, however its calls fare: it has expired, or it is
      to be pushed and has no file. */
  predicate Blocked(cls: string, obj: KongFile, now: nat) {
    Expired(obj, now) || (ToPush(cls, obj) && !KnownKind(obj.spec))
  }

  predicate ToPush(cls: string, obj: KongFile) {
    MatchesClass(obj, cls) && !obj.status.validated
  }

  predicate CurrentBlocked(cls: string, s: State, key: string, now: nat) {
    Current(s.site.api, key).Some? && Blocked(cls, Current(s.site.api, key).value, now)
  }

  // ---------------------------------------------------------------- the work left

  /** The versions the informer has not shown yet. */
  function Lag(api: Api, key: string): nat {
    |TimelineOf(api, key).versions| - 1 - TimelineOf(api, key).seen
  }

  predicate KeyQuiet(s: State, key: string) {
    Lag(s.site.api, key) == 0 && key !in s.queue
  }

  /** The steps it takes at most once the current version is shown: for a vanished object a clean-up and a
      pass, for one to be pushed a push, a delivery and a pass, for any other a pass. */
  function LastWork(cls: string, current: Option<KongFile>): nat {
    if current.None? then 2 else if ToPush(cls, current.value) then 3 else 1
  }

  function Work(cls: string, s: State, key: string): nat {
    var current := Current(s.site.api, key);
    if Lag(s.site.api, key) > 0 then Lag(s.site.api, key) + LastWork(cls, current)
    else if key !in s.queue then 0
    else if current.None? && key !in s.site.cache then 1
    else LastWork(cls, current)
  }

  /** A delivery for the key, or a pass on it when its current version is shown. */
  predicate Productive(s: State, step: Step, key: string) {
    Enabled(s, step) &&
    ((step.Deliver? && step.key == key) || (step.Pass? && step.key == key && Lag(s.site.api, key) == 0))
  }

  function ProductiveSteps(cls: string, s: State, steps: seq<Step>, key: string): nat {
    if steps == [] then 0
    else
      var before, step := steps[..|steps| - 1], steps[|steps| - 1];
      ProductiveSteps(cls, s, before, key) + if Productive(Exec(cls, s, before), step, key) then 1 else 0
  }

  lemma DeliverMoves(cls: string, s: State, key: string, position: nat)
    requires key in s.site.api && s.site.api[key].seen < position < |s.site.api[key].versions|
    ensures var s' := Next(cls, s, Deliver(key, position));
            var event := EventOf(s.site.api[key].versions[s.site.api[key].seen], s.site.api[key].versions[position]);
            s'.site.api == s.site.api[key := s.site.api[key].(seen := position)] && s'.clock == s.clock &&
            s'.site.cache == s.site.cache && s'.queue == if Enqueues(event, cls) then s.queue + {key} else s.queue
  {
  }

  /** No work is left exactly when the key is quiet; and while some is left, there is a productive step. */
  lemma WorkLeftMeansStep(cls: string, s: State, key: string)
    ensures Work(cls, s, key) == 0 <==> KeyQuiet(s, key)
    ensures Work(cls, s, key) > 0 ==>
              Productive(s, Deliver(key, |TimelineOf(s.site.api, key).versions| - 1), key) ||
              Productive(s, Pass(key, ServedAt(s.clock)), key)
  {
  }

  lemma WorkElsewhere(cls: string, s: State, s': State, key: string)
    requires TimelineOf(s'.site.api, key) == TimelineOf(s.site.api, key)
    requires (key in s'.queue <==> key in s.queue) && (key in s'.site.cache <==> key in s.site.cache)
    ensures Work(cls, s', key) == Work(cls, s, key)
  {
  }

  lemma PassLowersWork(cls: string, s: State, s': State, key: string, now: nat)
    requires PassFacts(cls, s, s', key, ServedAt(now)) && !CurrentBlocked(cls, s, key, now)
    requires Lag(s.site.api, key) == 0
    ensures Work(cls, s', key) < Work(cls, s, key)
  {
    assert Seen(s.site.api, key) == Current(s.site.api, key);
    match BranchOf(cls, s.site.api, key, ServedAt(now))
    case Pushing(obj) => ServedPush(cls, s, s', key, obj, now);
    case _ =>
  }

  lemma ServedPush(cls: string, s: State, s': State, key: string, obj: KongFile, now: nat)
    requires PassFacts(cls, s, s', key, ServedAt(now)) && KnownKind(obj.spec)
    requires BranchOf(cls, s.site.api, key, ServedAt(now)) == Pushing(obj) && Current(s.site.api, key) == Some(obj)
    ensures s'.queue == s.queue - {key}
    ensures s'.site.api == AppendTo(s.site.api, key, Stamp(s.site.api, key, Validate(obj)))
  {
    BlankPathIffUnknownKind(obj.spec);
  }

  /** A pass on a key whose current version is not shown yet cannot change the API server. */
  lemma PassBehindKeepsWork(cls: string, s: State, s': State, key: string, env: Env)
    requires PassFacts(cls, s, s', key, env) && Lag(s.site.api, key) > 0
    ensures s'.site.api == s.site.api && Work(cls, s', key) == Work(cls, s, key)
  {
  }

  lemma DeliverLowersWork(cls: string, s: State, key: string, position: nat)
    requires Enabled(s, Deliver(key, position))
    ensures Work(cls, Next(cls, s, Deliver(key, position)), key) < Work(cls, s, key)
  {
    DeliverMoves(cls, s, key, position);
  }

  /** The current version stays as it is, or becomes validated. */
  predicate CurrentKept(s: State, s': State, key: string) {
    var now, now' := Current(s.site.api, key), Current(s'.site.api, key);
    now' == now || (now.Some? && now'.Some? && SameButStatus(now.value, now'.value) && now'.value.status.validated)
  }

  lemma KeptIsNotBlocked(cls: string, s: State, s': State, key: string, now: nat)
    requires CurrentKept(s, s', key) && !CurrentBlocked(cls, s, key, now)
    ensures !CurrentBlocked(cls, s', key, now)
  {
  }

  lemma HelpfulKeepsCurrent(cls: string, s: State, step: Step, key: string)
    requires Legal(s.site.api) && (step.Deliver? || step.Pass?)
    ensures CurrentKept(s, Next(cls, s, step), key)
  {
    if step.Pass? && Enabled(s, step) {
      PassHasFacts(cls, s, step.key, step.env);
      PassKeepsCurrent(cls, s, Next(cls, s, step), step.key, step.env, key);
    } else if step.Deliver? && Enabled(s, step) {
      DeliverMoves(cls, s, step.key, step.position);
    }
  }

  lemma PassKeepsCurrent(cls: string, s: State, s': State, passed: string, env: Env, key: string)
    requires PassFacts(cls, s, s', passed, env)
    ensures CurrentKept(s, s', key)
  {
    if s'.site.api != s.site.api {
      var obj := BranchOf(cls, s.site.api, passed, env).obj;
      var version := Stamp(s.site.api, passed, Validate(obj));
      assert Current(AppendTo(s.site.api, passed, version), passed) == version;
      assert SameButStatus(obj, version.value);
    }
  }

  /** A productive step leaves less work for its key, every other helpful step leaves as much. */
  lemma StepAndWork(cls: string, s: State, step: Step, horizon: nat, key: string)
    requires Legal(s.site.api) && Helpful(step, horizon) && !CurrentBlocked(cls, s, key, horizon)
    ensures var s' := Next(cls, s, step);
            if Productive(s, step, key) then Work(cls, s', key) < Work(cls, s, key)
            else Work(cls, s', key) == Work(cls, s, key)
  {
    var s' := Next(cls, s, step);
    if !Enabled(s, step) {
    } else if step.Deliver? {
      DeliverMoves(cls, s, step.key, step.position);
      if step.key == key {
        DeliverLowersWork(cls, s, key, step.position);
      } else {
        WorkElsewhere(cls, s, s', key);
      }
    } else {
      PassHasFacts(cls, s, step.key, step.env);
      PassAndWork(cls, s, s', step.key, step.env.now, key);
    }
  }

  lemma PassAndWork(cls: string, s: State, s': State, passed: string, now: nat, key: string)
    requires PassFacts(cls, s, s', passed, ServedAt(now)) && !CurrentBlocked(cls, s, key, now)
    ensures if passed == key && Lag(s.site.api, key) == 0 then Work(cls, s', key) < Work(cls, s, key)
            else Work(cls, s', key) == Work(cls, s, key)
  {
    if passed != key {
      PassElsewhere(cls, s, s', passed, ServedAt(now), key);
      WorkElsewhere(cls, s, s', key);
    } else if Lag(s.site.api, key) == 0 {
      PassLowersWork(cls, s, s', key, now);
    } else {
      PassBehindKeepsWork(cls, s, s', key, ServedAt(now));
    }
  }

  lemma HelpfulClock(cls: string, s: State, step: Step, horizon: nat)
    requires Helpful(step, horizon) && s.clock <= horizon
    ensures s.clock <= Next(cls, s, step).clock <= horizon
  {
  }

  // ---------------------------------------------------------------- every served run

  /** The bound. In any run of deliveries and served passes, in any order and however many, a key whose current
      version is not blocked takes no more productive steps than it had work left. */
  lemma {:induction false} WorkIsBounded(cls: string, s: State, steps: seq<Step>, horizon: nat, key: string)
    requires Legal(s.site.api) && AllHelpful(steps, horizon) && !CurrentBlocked(cls, s, key, horizon)
    ensures Legal(Exec(cls, s, steps).site.api) && !CurrentBlocked(cls, Exec(cls, s, steps), key, horizon)
    ensures s.clock <= horizon ==> Exec(cls, s, steps).clock <= horizon
    ensures ProductiveSteps(cls, s, steps, key) + Work(cls, Exec(cls, s, steps), key) <= Work(cls, s, key)
    ensures Work(cls, s, key) <= Lag(s.site.api, key) + 3
  {
    if steps == [] {
    } else {
      var before, step := steps[..|steps| - 1], steps[|steps| - 1];
      assert step in steps;
      WorkIsBounded(cls, s, before, horizon, key);
      StepAndWork(cls, Exec(cls, s, before), step, horizon, key);
      LegalStep(cls, Exec(cls, s, before), step);
      if s.clock <= horizon {
        HelpfulClock(cls, Exec(cls, s, before), step, horizon);
      }
      HelpfulKeepsCurrent(cls, Exec(cls, s, before), step, key);
      KeptIsNotBlocked(cls, Exec(cls, s, before), Exec(cls, s, steps), key, horizon);
    }
  }

  lemma QuietByKey(s: State)
    ensures Quiet(s) <==> forall key :: KeyQuiet(s, key)
  {
    if forall key :: KeyQuiet(s, key) {
      forall key | key in s.site.api ensures s.site.api[key].seen == |s.site.api[key].versions| - 1 {
        assert KeyQuiet(s, key);
      }
      forall key ensures key !in s.queue {
        assert KeyQuiet(s, key);
      }
    }
  }

  /** So a served run that keeps delivering and passing ends quiet: it is quiet once each key has had as many
      productive steps as it had work left, and as long as it is not, a productive step is possible. */
  lemma ServedRunsEndQuiet(cls: string, s: State, steps: seq<Step>, horizon: nat)
    requires Legal(s.site.api) && AllHelpful(steps, horizon) && s.clock <= horizon
    requires forall key :: !CurrentBlocked(cls, s, key, horizon)
    ensures (forall key :: ProductiveSteps(cls, s, steps, key) >= Work(cls, s, key)) ==> Quiet(Exec(cls, s, steps))
    ensures !Quiet(Exec(cls, s, steps)) <==>
            exists key, step :: Helpful(step, horizon) && Productive(Exec(cls, s, steps), step, key)
  {
    var s' := Exec(cls, s, steps);
    forall key
      ensures ProductiveSteps(cls, s, steps, key) >= Work(cls, s, key) ==> KeyQuiet(s', key)
    {
      WorkIsBounded(cls, s, steps, horizon, key);
      WorkLeftMeansStep(cls, s', key);
    }
    QuietByKey(s');
    WorkIsBounded(cls, s, steps, horizon, "");
    NotQuietMeansStep(cls, s', horizon);
  }

  lemma NotQuietMeansStep(cls: string, s: State, horizon: nat)
    requires s.clock <= horizon
    ensures !Quiet(s) <==> exists key, step :: Helpful(step, horizon) && Productive(s, step, key)
  {
    QuietByKey(s);
    if key :| !KeyQuiet(s, key) {
      WorkLeftMeansStep(cls, s, key);
      assert Helpful(Deliver(key, |TimelineOf(s.site.api, key).versions| - 1), horizon);
      assert Helpful(Pass(key, ServedAt(s.clock)), horizon);
    } else {
      forall key, step ensures !Productive(s, step, key) {
        assert KeyQuiet(s, key);
      }
    }
  }
}
