/**
  * The release script: a pipeline of steps, and a log that lets a new run resume after a crash or a failure.
  */
module Release {

  /** The steps, under the names that the script gives them. */
  datatype Step =
    | INSTALL_DEPS | CHANGE_TO_RELEASE_VERSION
    | BUILD_VERSION_FORMAT_CODE | BUILD_VERSION_CLEANUP | BUILD_VERSION_BUILD_OPENAPI
    | BUILD_VERSION_BUILD_DOCUMENTATION | BUILD_VERSION_BUILD_UI | BUILD_VERSION_BUILD_DISTRIBUTION
    | CREATE_GITHUB_TAG | PUBLISH_LIBRARIES_TO_CENTRAL | PUBLISH_HELM_CHART
    | CHANGE_TO_DEV_VERSION | PUSH_TO_GITHUB | PUBLISH_DOCKER_OTOROSHI

  datatype State = Start | Stop | Error

  datatype Record = Record(step: Step, state: State)

  /**
    * What happens when a step is reached: the process dies before it, or within it, which is before the end of the step
    * is written, or the step ends.
    */
  datatype Outcome = DiesBefore | DiesWithin | Fails | Succeeds

  /** A step was run, with an outcome. */
  datatype Execution = Execution(step: Step, outcome: Outcome)

  /** The steps that were run with success, in order. */
  function Succeeded(history: seq<Execution>): seq<Step> {
    if history == [] then []
    else
      var last := history[|history| - 1];
      Succeeded(history[..|history| - 1]) + if last.outcome == Succeeds then [last.step] else []
  }

  lemma SucceededAppend(history: seq<Execution>, e: Execution)
    ensures Succeeded(history + [e]) == Succeeded(history) + if e.outcome == Succeeds then [e.step] else []
  {
    assert (history + [e])[..|history|] == history;
  }

  /** The steps of a release; a dry run stops after the eighth. */
  function Pipeline(): seq<Step> {
    [INSTALL_DEPS, CHANGE_TO_RELEASE_VERSION,
     BUILD_VERSION_FORMAT_CODE, BUILD_VERSION_CLEANUP, BUILD_VERSION_BUILD_OPENAPI,
     BUILD_VERSION_BUILD_DOCUMENTATION, BUILD_VERSION_BUILD_UI, BUILD_VERSION_BUILD_DISTRIBUTION,
     CREATE_GITHUB_TAG, PUBLISH_LIBRARIES_TO_CENTRAL, PUBLISH_HELM_CHART,
     CHANGE_TO_DEV_VERSION, PUSH_TO_GITHUB, PUBLISH_DOCKER_OTOROSHI]
  }

  lemma Distinct()
    ensures |Pipeline()| == 14
    ensures forall i, j :: 0 <= i < |Pipeline()| && 0 <= j < |Pipeline()| && Pipeline()[i] == Pipeline()[j] ==> i == j
  {
  }

  lemma Places()
    ensures |Pipeline()| == 14
    ensures Pipeline()[0] == INSTALL_DEPS && Pipeline()[1] == CHANGE_TO_RELEASE_VERSION
    ensures Pipeline()[2] == BUILD_VERSION_FORMAT_CODE && Pipeline()[3] == BUILD_VERSION_CLEANUP
    ensures Pipeline()[4] == BUILD_VERSION_BUILD_OPENAPI && Pipeline()[5] == BUILD_VERSION_BUILD_DOCUMENTATION
    ensures Pipeline()[6] == BUILD_VERSION_BUILD_UI && Pipeline()[7] == BUILD_VERSION_BUILD_DISTRIBUTION
    ensures Pipeline()[8] == CREATE_GITHUB_TAG && Pipeline()[9] == PUBLISH_LIBRARIES_TO_CENTRAL
    ensures Pipeline()[10] == PUBLISH_HELM_CHART && Pipeline()[11] == CHANGE_TO_DEV_VERSION
    ensures Pipeline()[12] == PUSH_TO_GITHUB && Pipeline()[13] == PUBLISH_DOCKER_OTOROSHI
  {
  }

  /** The steps that have stopped, in the order of their records. */
  function Stopped(log: seq<Record>): (s: seq<Step>)
    ensures |s| <= |log|
  {
    if log == [] then []
    else
      var last := log[|log| - 1];
      Stopped(log[..|log| - 1]) + if last.state.Stop? then [last.step] else []
  }

  /** Each record is about the first step that has not stopped before it, and an end follows a start. */
  ghost predicate Ordered(log: seq<Record>) {
    forall i :: 0 <= i < |log| ==> Follows(log[..i], log[i])
  }

  ghost predicate Follows(before: seq<Record>, r: Record) {
    && |Stopped(before)| < |Pipeline()| && r.step == Pipeline()[|Stopped(before)|]
    && (!r.state.Start? ==> before != [] && before[|before| - 1] == Record(r.step, Start))
  }

  lemma OrderedAppend(log: seq<Record>, r: Record)
    requires Ordered(log) && Follows(log, r)
    ensures Ordered(log + [r])
    ensures Stopped(log + [r]) == Stopped(log) + if r.state.Stop? then [r.step] else []
  {
    var all := log + [r];
    assert all[..|log|] == log;
    forall i | 0 <= i < |all|
      ensures Follows(all[..i], all[i])
    {
      if i < |log| {
        assert all[..i] == log[..i] && all[i] == log[i];
      }
    }
  }

  /** The steps that have stopped are a prefix of the pipeline. */
  lemma {:induction false} StoppedIsPrefix(log: seq<Record>)
    requires Ordered(log)
    ensures Stopped(log) <= Pipeline()
    decreases |log|
  {
    hide Pipeline;
    if log != [] {
      var n := |log| - 1;
      OrderedPrefix(log, n);
      StoppedIsPrefix(log[..n]);
      assert Follows(log[..n], log[n]);
    }
  }

  lemma {:induction false} StoppedIn(log: seq<Record>, step: Step)
    ensures step in Stopped(log) <==> Record(step, Stop) in log
    decreases |log|
  {
    if log != [] {
      var n := |log| - 1;
      StoppedIn(log[..n], step);
      assert log == log[..n] + [log[n]];
    }
  }

  lemma {:induction false} StoppedGrows(log: seq<Record>, i: nat, k: nat)
    requires i <= k <= |log|
    ensures Stopped(log[..i]) <= Stopped(log[..k])
    decreases k
  {
    if i < k {
      assert log[..k][..k - 1] == log[..k - 1];
      StoppedGrows(log, i, k - 1);
    }
  }

  lemma PrefixOfPrefix(was: seq<Record>, log: seq<Record>)
    requires was <= log
    ensures Stopped(was) <= Stopped(log)
  {
    StoppedGrows(log, |was|, |log|);
    assert log[..|was|] == was && log[..|log|] == log;
  }

  lemma OrderedPrefix(log: seq<Record>, k: nat)
    requires Ordered(log) && k <= |log|
    ensures Ordered(log[..k])
  {
    forall i | 0 <= i < k
      ensures Follows(log[..k][..i], log[..k][i])
    {
      assert log[..k][..i] == log[..i];
    }
  }

  /** A step does not start, fail or stop again after its stop. */
  lemma NothingAfterStop(log: seq<Record>, i: nat, k: nat)
    requires Ordered(log) && i < k < |log| && log[i].state.Stop?
    ensures log[k].step != log[i].step
  {
    hide Pipeline, Ordered, Stopped;
    Distinct();
    OrderedAt(log, i);
    OrderedAt(log, k);
    StoppedNext(log, i);
    StoppedGrows(log, i + 1, k);
  }

  lemma OrderedAt(log: seq<Record>, i: nat)
    requires Ordered(log) && i < |log|
    ensures Follows(log[..i], log[i])
  {
  }

  lemma StoppedNext(log: seq<Record>, i: nat)
    requires i < |log|
    ensures Stopped(log[..i + 1]) == Stopped(log[..i]) + if log[i].state.Stop? then [log[i].step] else []
  {
    assert log[..i + 1][..i] == log[..i];
  }

  /** Whatever a record is about, all the earlier steps have stopped before it. */
  lemma EarlierStopped(log: seq<Record>, k: nat, m: nat)
    requires Ordered(log) && k < |log| && m < |Pipeline()| && log[k].step in Pipeline()[m + 1..]
    ensures Record(Pipeline()[m], Stop) in log[..k]
  {
    hide Pipeline;
    Distinct();
    var j :| m < j < |Pipeline()| && log[k].step == Pipeline()[j];
    assert Follows(log[..k], log[k]);
    OrderedPrefix(log, k);
    StoppedIsPrefix(log[..k]);
    assert Stopped(log[..k])[m] == Pipeline()[m];
    StoppedIn(log[..k], Pipeline()[m]);
  }

  class Script {
    /** The release file, which outlives the process. */
    var file: seq<Record>
    /** What the run has read from it. */
    var steps: seq<Record>

    /** The steps that were run, by all runs of the script. */
    ghost var history: seq<Execution>

    /** Besides the order of the records, the steps that have stopped are those that were run with success. */
    ghost predicate Valid()
      reads this
    {
      && Ordered(file) && Ordered(steps) && steps <= file
      && Stopped(file) == Succeeded(history)
    }

    /** The first `j` steps of the pipeline are done, and what this run has read does not say more than the file. */
    ghost predicate At(j: nat)
      reads this
    {
      && Valid() && j <= |Pipeline()|
      && |Stopped(file)| == if |Stopped(steps)| < j then j else |Stopped(steps)|
    }

    /** No step from number `j` on has stopped in this run. */
    ghost predicate UpTo(j: nat)
      reads this
    {
      |Stopped(file)| <= if |Stopped(steps)| < j then j else |Stopped(steps)|
    }

    constructor ()
      ensures Valid() && file == [] && history == []
    {
      file, steps, history := [], [], [];
    }

    /** What this run writes first is the start of the first step that has not stopped. */
    ghost predicate Resumed(was: seq<Record>)
      reads this
    {
      && was <= file && |Stopped(was)| <= |Pipeline()|
      && (file != was ==> |Stopped(was)| < |Pipeline()| && file[|was|] == Record(Pipeline()[|Stopped(was)|], Start))
    }

    /** The run has come to step number `j`. */
    ghost predicate Ready(j: nat)
      reads this
    {
      At(j) && Resumed(steps)
    }

    /** The run is over before the end. */
    ghost predicate Over(outcome: Step -> Outcome)
      reads this
    {
      Valid() && Resumed(steps) && DiedBefore(outcome)
    }

    /** A run that has written nothing has died before the first step that has not stopped. */
    ghost predicate DiedBefore(outcome: Step -> Outcome)
      reads this
    {
      file == steps ==> |Stopped(steps)| < |Pipeline()| && outcome(Pipeline()[|Stopped(steps)|]) == DiesBefore
    }

    /**
      * `ensureStep`: an exception, or the end of the process, ends the run. A stop is written if, and only if, the step
      * had none and is run with success.
      */
    method EnsureStep(step: Step, outcome: Outcome, ghost j: nat) returns (go: bool)
      requires At(j) && j < |Pipeline()| && step == Pipeline()[j] && Resumed(steps)
      modifies this`file, this`history
      ensures Valid() && (go ==> At(j + 1) && Record(step, Stop) in file)
      ensures go == (Record(step, Stop) in steps || outcome == Succeeds)
      ensures (forall k :: k > j ==> UpTo(k)) && Resumed(steps)
      ensures !go && file == steps ==> outcome == DiesBefore && j == |Stopped(steps)|
      // a step that has stopped is passed; any other is run, unless the process dies before it
      ensures Record(step, Stop) in steps || outcome == DiesBefore ==> file == old(file) && history == old(history)
      ensures Record(step, Stop) !in steps && outcome != DiesBefore ==>
                && history == old(history) + [Execution(step, outcome)]
                && old(file) + [Record(step, Start)] <= file
      // and its end is what is written
      ensures Record(step, Stop) !in steps && outcome == DiesWithin ==> |file| == |old(file)| + 1
      ensures Record(step, Stop) !in steps && outcome in {Fails, Succeeds} ==>
                && |file| == |old(file)| + 2
                && file[|old(file)| + 1] == Record(step, if outcome == Succeeds then Stop else Error)
    {
      hide Ordered, Stopped, Pipeline, Succeeded;
      Distinct();
      StoppedIn(steps, step);
      StoppedIsPrefix(steps);
      StoppedIn(file, step);
      StoppedIsPrefix(file);
      ghost var was := file;
      assert j < |Stopped(steps)| ==> Stopped(steps)[j] == step;
      go := false;
      if Record(step, Stop) in steps {
        go := true;
      } else if outcome != DiesBefore {
        SucceededAppend(history, Execution(step, outcome));
        history := history + [Execution(step, outcome)];
        Append(Record(step, Start));
        if outcome == Succeeds {
          Append(Record(step, Stop));
          go := true;
        } else if outcome == Fails {
          Append(Record(step, Error));
        }
        assert file[..|was| + 1] == was + [Record(step, Start)];
        assert file[|steps|] == if was == steps then Record(step, Start) else was[|steps|];
      }
    }

    method Append(r: Record)
      requires Ordered(file) && Ordered(steps) && steps <= file && Follows(file, r)
      modifies this`file
      ensures Ordered(file) && steps <= file && file == old(file) + [r]
      ensures Stopped(file) == old(Stopped(file)) + if r.state.Stop? then [r.step] else []
    {
      hide Stopped, Follows, Ordered;
      OrderedAppend(file, r);
      file := file + [r];
    }

    /** A step of the pipeline. */
    method Pass(step: Step, outcome: Step -> Outcome, ghost j: nat) returns (go: bool)
      requires Ready(j) && j < |Pipeline()| && step == Pipeline()[j]
      modifies this`file, this`history
      ensures if go then Ready(j + 1) else Over(outcome)
      ensures old(file) <= file && old(history) <= history && forall k :: k > j ==> UpTo(k)
    {
      hide Ordered, Stopped, Pipeline, Succeeded;
      go := EnsureStep(step, outcome(step), j);
    }

    /** `buildVersion`. */
    method BuildVersion(outcome: Step -> Outcome) returns (go: bool)
      requires Ready(2)
      modifies this`file, this`history
      ensures if go then Ready(8) else Over(outcome)
      ensures old(file) <= file && old(history) <= history && UpTo(8)
    {
      hide Ready, Over, UpTo, Pipeline;
      Places();
      go := Pass(BUILD_VERSION_FORMAT_CODE, outcome, 2);
      if go {
        go := Pass(BUILD_VERSION_CLEANUP, outcome, 3);
      }
      if go {
        go := Pass(BUILD_VERSION_BUILD_OPENAPI, outcome, 4);
      }
      if go {
        go := Pass(BUILD_VERSION_BUILD_DOCUMENTATION, outcome, 5);
      }
      if go {
        go := Pass(BUILD_VERSION_BUILD_UI, outcome, 6);
      }
      if go {
        go := Pass(BUILD_VERSION_BUILD_DISTRIBUTION, outcome, 7);
      }
    }

    /** The steps of a release that is not a dry run. */
    method Publish(outcome: Step -> Outcome) returns (go: bool)
      requires Ready(8)
      modifies this`file, this`history
      ensures if go then Ready(14) else Over(outcome)
      ensures old(file) <= file && old(history) <= history
    {
      hide Ready, Over, UpTo, Pipeline;
      Places();
      go := Pass(CREATE_GITHUB_TAG, outcome, 8);
      if go {
        go := Pass(PUBLISH_LIBRARIES_TO_CENTRAL, outcome, 9);
      }
      if go {
        go := Pass(PUBLISH_HELM_CHART, outcome, 10);
      }
      if go {
        go := Pass(CHANGE_TO_DEV_VERSION, outcome, 11);
      }
      if go {
        go := Pass(PUSH_TO_GITHUB, outcome, 12);
      }
      if go {
        go := Pass(PUBLISH_DOCKER_OTOROSHI, outcome, 13);
      }
    }

    /** `releaseOtoroshi`: one run of the script, which reads the file once. */
    method ReleaseOtoroshi(dryRun: bool, outcome: Step -> Outcome) returns (go: bool)
      requires Valid()
      modifies this
      ensures Valid() && old(file) <= file && old(history) <= history
      // a step that only failed or died is the first that the next run starts, unless that dies before it
      ensures file != old(file) ==>
                |Stopped(old(file))| < |Pipeline()| && file[|old(file)|] == Record(Pipeline()[|Stopped(old(file))|],
                    Start)
      ensures file == old(file) ==>
                var n := |Stopped(old(file))|;
                n == |Pipeline()| || (dryRun && n >= 8) || outcome(Pipeline()[n]) == DiesBefore
      ensures go && !dryRun ==> Stopped(file) == Pipeline()
      ensures go && dryRun ==> |Stopped(file)| >= 8
      ensures dryRun ==> |Stopped(file)| <= 8 || Stopped(file) == old(Stopped(file))
    {
      hide Ordered, Stopped, Succeeded;
      steps := file;
      StoppedIsPrefix(file);
      ghost var was := file;
      go := Pass(INSTALL_DEPS, outcome, 0);
      if go {
        go := Pass(CHANGE_TO_RELEASE_VERSION, outcome, 1);
      }
      if go {
        go := BuildVersion(outcome);
      }
      assert UpTo(8);
      PrefixOfPrefix(was, file);
      if go && !dryRun {
        go := Publish(outcome);
        StoppedIsPrefix(file);
      }
    }
  }

  datatype Attempt = Attempt(dryRun: bool, outcome: Step -> Outcome)

  /** Any number of runs, each with deaths and failures anywhere. */
  method Run(attempts: seq<Attempt>) returns (script: Script)
    ensures Ordered(script.file) && Stopped(script.file) == Succeeded(script.history)
  {
    script := new Script();
    for i := 0 to |attempts|
      invariant script.Valid() && fresh(script)
    {
      var go := script.ReleaseOtoroshi(attempts[i].dryRun, attempts[i].outcome);
    }
  }
}
