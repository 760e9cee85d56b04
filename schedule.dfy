/**
 * The upload plan of one agent, as `ImportDocumentsParallel` and `ImportDocumentsSequential`
 * compute it: the agent's files cut into portions, each portion started at its own offset and
 * cut into units (batches, or single files in discrete mode), and, in sequential order, the delay
 * each unit waits before it is uploaded. The waiting itself and the concurrency of the portion
 * tasks are not modelled; the durations they wait and the order they follow are.
 */
module Schedule {
  import opened Settings
  import opened LinqExtensions

  /** The `TimeShift` of 0.1 that both upload methods pass to `GetRandomTime`, in tenths. */
  const TimeShiftTenths: nat := 1

  /** The default `shift` of 1 that the agent start delay uses, in tenths. */
  const FullShiftTenths: nat := 10

  /**
   * `(int)(interval.TotalMilliseconds * shift)`, the exclusive upper bound that `GetRandomTime`
   * passes to `random.Next`, for an interval of whole milliseconds and a shift of `tenths / 10`.
   */
  function RandomTimeBound(interval: Duration, tenths: nat): nat {
    interval * tenths / 10
  }

  /** What `random.Next(0, bound)` may return: 0 when `bound` is 0, otherwise a value below `bound`. */
  predicate IsRandomNext(x: nat, bound: nat) {
    if bound == 0 then x == 0 else x < bound
  }

  /** The places where the import draws a random time. */
  datatype DrawSite =
    | AgentStart(agent: nat)                           // the agent's start delay
    | PortionStart(agent: nat, portion: nat)           // the jitter in a portion's offset
    | UnitStart(agent: nat, portion: nat, unit: nat)   // the jitter in a unit's delay (sequential order)

  /** The bound `GetRandomTime` uses at each site. */
  function DrawBound(site: DrawSite, s: DocumentUploadSettings): nat {
    match site
    case AgentStart(_) => RandomTimeBound(s.agentStartTimeout, FullShiftTenths)
    case PortionStart(_, _) => RandomTimeBound(s.uploadPortionsInterval, TimeShiftTenths)
    case UnitStart(_, _, _) => RandomTimeBound(s.uploadInterval, TimeShiftTenths)
  }

  /** `draw` gives, for every site, a value that `GetRandomTime` could have returned there. */
  ghost predicate ValidDraws(draw: DrawSite -> nat, s: DocumentUploadSettings) {
    forall site :: IsRandomNext(draw(site), DrawBound(site, s))
  }

  /** What one upload request carries: one file (discrete mode) or a batch of files. */
  datatype Unit = Single(file: string) | Batch(files: seq<string>)

  function UnitFiles(u: Unit): seq<string> {
    match u
    case Single(f) => [f]
    case Batch(fs) => fs
  }

  /** The files of the units, in order. */
  function AllUnitFiles(units: seq<Unit>): seq<string> {
    if |units| == 0 then [] else UnitFiles(units[0]) + AllUnitFiles(units[1..])
  }

  /** How the units of a portion are delivered once the portion has waited its offset. */
  datatype Delivery =
    | Concurrent                         // Parallel: every unit at once
    | OneAtATime(delays: seq<Duration>)  // Sequential: unit `k` waits `delays[k]`, after unit `k - 1` has returned

  /** One entry of `uploadTasks`: a portion's offset, its units and how they are delivered. */
  datatype PortionTask = PortionTask(offset: Duration, units: seq<Unit>, delivery: Delivery)

  /** `PortionSize > 0 ? files.SplitPages(PortionSize) : new[] { files }`. */
  function FilePortions(files: seq<string>, portionSize: int): seq<seq<string>> {
    if portionSize > 0 then Pages(files, portionSize) else [files]
  }

  function Batches(pages: seq<seq<string>>): (units: seq<Unit>)
    ensures |units| == |pages| && forall i :: 0 <= i < |pages| ==> units[i] == Batch(pages[i])
  {
    seq(|pages|, i requires 0 <= i < |pages| => Batch(pages[i]))
  }

  function Singles(files: seq<string>): (units: seq<Unit>)
    ensures |units| == |files| && forall i :: 0 <= i < |files| ==> units[i] == Single(files[i])
  {
    seq(|files|, i requires 0 <= i < |files| => Single(files[i]))
  }

  /** The units of a portion: `SplitPages(BatchSize)` batches when `BatchSize > 0`, otherwise each file. */
  function UnitsOf(portion: seq<string>, batchSize: int): seq<Unit> {
    if batchSize > 0 then Batches(Pages(portion, batchSize)) else Singles(portion)
  }

  /** `portionIndex * UploadPortionsInterval + GetRandomTime(UploadPortionsInterval, TimeShift)`. */
  function PortionOffset(agent: nat, portionIndex: nat, s: DocumentUploadSettings, draw: DrawSite -> nat): Duration {
    portionIndex * s.uploadPortionsInterval + draw(PortionStart(agent, portionIndex))
  }

  /** `getDelayBeforeUpload`: the jitter alone before the first unit, `UploadInterval` plus jitter before the others. */
  function DelayBeforeUpload(isFirstItem: bool, s: DocumentUploadSettings, jitter: Duration): Duration {
    if isFirstItem then jitter else s.uploadInterval + jitter
  }

  /** The delays before the `n` units of a sequential portion. */
  function UnitDelays(agent: nat, portionIndex: nat, n: nat, s: DocumentUploadSettings, draw: DrawSite -> nat): (delays: seq<Duration>)
    ensures |delays| == n
  {
    seq<Duration>(n, k requires 0 <= k < n => DelayBeforeUpload(k == 0, s, draw(UnitStart(agent, portionIndex, k))))
  }

  function PortionPlan(agent: nat, portionIndex: nat, portion: seq<string>, s: DocumentUploadSettings,
                       order: DocumentUploadOrder, draw: DrawSite -> nat): PortionTask
  {
    var units := UnitsOf(portion, s.batchSize);
    PortionTask(
      PortionOffset(agent, portionIndex, s, draw),
      units,
      if order == Sequential then OneAtATime(UnitDelays(agent, portionIndex, |units|, s, draw)) else Concurrent)
  }

  /** One task per portion, in portion order. */
  function PortionPlans(agent: nat, portions: seq<seq<string>>, s: DocumentUploadSettings, order: DocumentUploadOrder,
                        draw: DrawSite -> nat): (tasks: seq<PortionTask>)
    ensures |tasks| == |portions|
  {
    seq(|portions|, i requires 0 <= i < |portions| => PortionPlan(agent, i, portions[i], s, order, draw))
  }

  /** The `uploadTasks` list of one agent, one entry per portion, in portion order. */
  function Plan(agent: nat, files: seq<string>, s: DocumentUploadSettings, order: DocumentUploadOrder,
                draw: DrawSite -> nat): (tasks: seq<PortionTask>)
    ensures |tasks| == |FilePortions(files, s.portionSize)|
  {
    PortionPlans(agent, FilePortions(files, s.portionSize), s, order, draw)
  }

  /** The units of one portion, cut as both upload methods cut them. */
  method PortionUnits(portion: seq<string>, batchSize: int) returns (units: seq<Unit>)
    ensures units == UnitsOf(portion, batchSize)
  {
    if batchSize > 0 {
      var batches := SplitPages(portion, batchSize);
      units := Batches(batches);
    } else {
      units := Singles(portion);
    }
  }

  /** The portions of the agent's files, cut as both upload methods cut them. */
  method SplitIntoPortions(files: seq<string>, portionSize: int) returns (filePortions: seq<seq<string>>)
    ensures filePortions == FilePortions(files, portionSize)
  {
    if portionSize > 0 {
      filePortions := SplitPages(files, portionSize);
    } else {
      filePortions := [files];
    }
  }

  /**
   * `ImportDocumentsParallel`: for each portion, in order, compute its offset and add a task that
   * uploads all of its units at once; `portionIndex` counts the portions.
   */
  method ImportDocumentsParallel(agent: nat, files: seq<string>, s: DocumentUploadSettings, draw: DrawSite -> nat)
    returns (uploadTasks: seq<PortionTask>)
    ensures uploadTasks == Plan(agent, files, s, Parallel, draw)
  {
    var filePortions := SplitIntoPortions(files, s.portionSize);
    uploadTasks := ParallelTasks(agent, filePortions, s, draw);
  }

  /** The loop of `ImportDocumentsParallel` over the portions. */
  method ParallelTasks(agent: nat, filePortions: seq<seq<string>>, s: DocumentUploadSettings, draw: DrawSite -> nat)
    returns (uploadTasks: seq<PortionTask>)
    ensures uploadTasks == PortionPlans(agent, filePortions, s, Parallel, draw)
  {
    var portionIndex := 0;
    uploadTasks := [];
    while portionIndex < |filePortions|
      invariant portionIndex <= |filePortions|
      invariant uploadTasks == PortionPlans(agent, filePortions, s, Parallel, draw)[..portionIndex]
    {
      var task := ParallelPortionTask(agent, portionIndex, filePortions[portionIndex], s, draw);
      uploadTasks := uploadTasks + [task];
      portionIndex := portionIndex + 1;
    }
    assert uploadTasks == PortionPlans(agent, filePortions, s, Parallel, draw)[..|filePortions|];
  }

  /**
   * `ImportDocumentsSequential`: the same portions and offsets, each task uploading its units one
   * at a time after the delays `UploadOneAtATime` computes.
   */
  method ImportDocumentsSequential(agent: nat, files: seq<string>, s: DocumentUploadSettings, draw: DrawSite -> nat)
    returns (uploadTasks: seq<PortionTask>)
    ensures uploadTasks == Plan(agent, files, s, Sequential, draw)
  {
    var filePortions := SplitIntoPortions(files, s.portionSize);
    uploadTasks := SequentialTasks(agent, filePortions, s, draw);
  }

  /** The loop of `ImportDocumentsSequential` over the portions. */
  method SequentialTasks(agent: nat, filePortions: seq<seq<string>>, s: DocumentUploadSettings, draw: DrawSite -> nat)
    returns (uploadTasks: seq<PortionTask>)
    ensures uploadTasks == PortionPlans(agent, filePortions, s, Sequential, draw)
  {
    var portionIndex := 0;
    uploadTasks := [];
    while portionIndex < |filePortions|
      invariant portionIndex <= |filePortions|
      invariant uploadTasks == PortionPlans(agent, filePortions, s, Sequential, draw)[..portionIndex]
    {
      var task := SequentialPortionTask(agent, portionIndex, filePortions[portionIndex], s, draw);
      uploadTasks := uploadTasks + [task];
      portionIndex := portionIndex + 1;
    }
    assert uploadTasks == PortionPlans(agent, filePortions, s, Sequential, draw)[..|filePortions|];
  }

  /** One iteration of `ImportDocumentsParallel`: the portion's offset and its units, all sent at once. */
  method ParallelPortionTask(agent: nat, portionIndex: nat, portion: seq<string>, s: DocumentUploadSettings,
                             draw: DrawSite -> nat) returns (task: PortionTask)
    ensures task == PortionPlan(agent, portionIndex, portion, s, Parallel, draw)
  {
    var timeout := portionIndex * s.uploadPortionsInterval + draw(PortionStart(agent, portionIndex));
    var units := PortionUnits(portion, s.batchSize);
    task := PortionTask(timeout, units, Concurrent);
  }

  /** One iteration of `ImportDocumentsSequential`: the portion's offset, its units and their delays. */
  method SequentialPortionTask(agent: nat, portionIndex: nat, portion: seq<string>, s: DocumentUploadSettings,
                               draw: DrawSite -> nat) returns (task: PortionTask)
    ensures task == PortionPlan(agent, portionIndex, portion, s, Sequential, draw)
  {
    var timeout := portionIndex * s.uploadPortionsInterval + draw(PortionStart(agent, portionIndex));
    var units := PortionUnits(portion, s.batchSize);
    var delays := UploadOneAtATime(agent, portionIndex, units, s, draw);
    task := PortionTask(timeout, units, OneAtATime(delays));
  }

  /**
   * The body of a sequential portion task: before each unit wait `getDelayBeforeUpload(isFirst)`,
   * then clear `isFirst` (`isFirstBatch` or `isFirstFile` in the source).
   */
  method UploadOneAtATime(agent: nat, portionIndex: nat, units: seq<Unit>, s: DocumentUploadSettings, draw: DrawSite -> nat)
    returns (delays: seq<Duration>)
    ensures delays == UnitDelays(agent, portionIndex, |units|, s, draw)
  {
    var isFirst := true;
    delays := [];
    for k := 0 to |units|
      invariant isFirst <==> k == 0
      invariant |delays| == k
      invariant forall j :: 0 <= j < k ==> delays[j] == DelayBeforeUpload(j == 0, s, draw(UnitStart(agent, portionIndex, j)))
    {
      delays := delays + [DelayBeforeUpload(isFirst, s, draw(UnitStart(agent, portionIndex, k)))];
      isFirst := false;
    }
  }

  // ---------------------------------------------------------------------------------------------
  // Properties of the plan

  /**
   * The portions partition the files: in order they give the files back; with `PortionSize > 0`
   * there are `ceil(n / PortionSize)` of them, none empty, all of `PortionSize` files but the last;
   * otherwise there is exactly one, holding every file.
   */
  lemma PortionsPartitionFiles(files: seq<string>, portionSize: int)
    ensures Flatten(FilePortions(files, portionSize)) == files
    ensures portionSize <= 0 ==> FilePortions(files, portionSize) == [files]
    ensures portionSize > 0 ==> |FilePortions(files, portionSize)| == (|files| + portionSize - 1) / portionSize
    ensures portionSize > 0 ==> forall i :: 0 <= i < |FilePortions(files, portionSize)| ==>
      0 < |FilePortions(files, portionSize)[i]| <= portionSize
    ensures portionSize > 0 ==> forall i :: 0 <= i < |FilePortions(files, portionSize)| - 1 ==>
      |FilePortions(files, portionSize)[i]| == portionSize
  {
    if portionSize > 0 {
      FlattenPages(files, portionSize);
      PagesSized(files, portionSize);
      PagesCount(files, portionSize);
    } else {
      assert Flatten([files]) == files + Flatten([]);
    }
  }

  lemma {:induction false} BatchFiles(pages: seq<seq<string>>)
    ensures AllUnitFiles(Batches(pages)) == Flatten(pages)
  {
    if |pages| > 0 {
      BatchFiles(pages[1..]);
      assert Batches(pages)[1..] == Batches(pages[1..]);
    }
  }

  lemma {:induction false} SingleFiles(files: seq<string>)
    ensures AllUnitFiles(Singles(files)) == files
  {
    if |files| > 0 {
      SingleFiles(files[1..]);
      assert Singles(files)[1..] == Singles(files[1..]);
      assert files == [files[0]] + files[1..];
    }
  }

  /**
   * The units partition the portion: in order their files give the portion back; with
   * `BatchSize > 0` each unit is a non-empty batch of at most `BatchSize` files, all full but the
   * last; otherwise each file is a unit of its own.
   */
  lemma UnitsPartitionPortion(portion: seq<string>, batchSize: int)
    ensures AllUnitFiles(UnitsOf(portion, batchSize)) == portion
    ensures batchSize > 0 ==> forall i :: 0 <= i < |UnitsOf(portion, batchSize)| ==>
      UnitsOf(portion, batchSize)[i].Batch? && 0 < |UnitsOf(portion, batchSize)[i].files| <= batchSize
    ensures batchSize > 0 ==> forall i :: 0 <= i < |UnitsOf(portion, batchSize)| - 1 ==>
      |UnitsOf(portion, batchSize)[i].files| == batchSize
    ensures batchSize <= 0 ==> |UnitsOf(portion, batchSize)| == |portion|
    ensures batchSize <= 0 ==> forall i :: 0 <= i < |portion| ==> UnitsOf(portion, batchSize)[i] == Single(portion[i])
  {
    if batchSize > 0 {
      BatchFiles(Pages(portion, batchSize));
      FlattenPages(portion, batchSize);
      PagesSized(portion, batchSize);
    } else {
      SingleFiles(portion);
    }
  }

  /** Every file of the plan, task by task and unit by unit. */
  function PlanFiles(tasks: seq<PortionTask>): seq<string> {
    if |tasks| == 0 then [] else AllUnitFiles(tasks[0].units) + PlanFiles(tasks[1..])
  }

  lemma {:induction false} PlanFilesFollowPortions(tasks: seq<PortionTask>, portions: seq<seq<string>>)
    requires |tasks| == |portions|
    requires forall i :: 0 <= i < |tasks| ==> AllUnitFiles(tasks[i].units) == portions[i]
    ensures PlanFiles(tasks) == Flatten(portions)
  {
    if |tasks| > 0 {
      PlanFilesFollowPortions(tasks[1..], portions[1..]);
    }
  }

  /** Every file of the agent is uploaded exactly once, and in the order the files were enumerated. */
  lemma PlanCoversFiles(agent: nat, files: seq<string>, s: DocumentUploadSettings, order: DocumentUploadOrder,
                        draw: DrawSite -> nat)
    ensures PlanFiles(Plan(agent, files, s, order, draw)) == files
  {
    var tasks := Plan(agent, files, s, order, draw);
    var portions := FilePortions(files, s.portionSize);
    forall i | 0 <= i < |tasks|
      ensures AllUnitFiles(tasks[i].units) == portions[i]
    {
      UnitsPartitionPortion(portions[i], s.batchSize);
    }
    PlanFilesFollowPortions(tasks, portions);
    PortionsPartitionFiles(files, s.portionSize);
  }

  /** The jitter bound for an interval: 0 for a zero interval, otherwise positive and no more than the interval. */
  function JitterLimit(interval: Duration): nat {
    if RandomTimeBound(interval, TimeShiftTenths) == 0 then 1 else RandomTimeBound(interval, TimeShiftTenths)
  }

  /** A jitter of `GetRandomTime(interval, 0.1)` lies in `[0, max(1, interval / 10))`, and below a positive interval. */
  lemma JitterBounds(x: nat, interval: Duration)
    requires IsRandomNext(x, RandomTimeBound(interval, TimeShiftTenths))
    ensures x < JitterLimit(interval) && JitterLimit(interval) == if interval < 10 then 1 else interval / 10
    ensures interval < 10 ==> x == 0
    ensures interval > 0 ==> x < interval
  {
  }

  /** The agent start delay `GetRandomTime(AgentStartTimeout)` is 0 for a zero timeout and below the timeout otherwise. */
  lemma AgentStartBelowTimeout(agent: nat, s: DocumentUploadSettings, draw: DrawSite -> nat)
    requires ValidDraws(draw, s)
    ensures s.agentStartTimeout == 0 ==> draw(AgentStart(agent)) == 0
    ensures s.agentStartTimeout > 0 ==> draw(AgentStart(agent)) < s.agentStartTimeout
  {
    assert IsRandomNext(draw(AgentStart(agent)), DrawBound(AgentStart(agent), s));
  }

  /** Portion `i` starts at `i * UploadPortionsInterval` plus a jitter below `max(1, UploadPortionsInterval / 10)`. */
  lemma OffsetBounds(agent: nat, i: nat, s: DocumentUploadSettings, draw: DrawSite -> nat)
    requires ValidDraws(draw, s)
    ensures i * s.uploadPortionsInterval <= PortionOffset(agent, i, s, draw)
    ensures PortionOffset(agent, i, s, draw) < i * s.uploadPortionsInterval + JitterLimit(s.uploadPortionsInterval)
  {
    var site := PortionStart(agent, i);
    assert IsRandomNext(draw(site), DrawBound(site, s));
    JitterBounds(draw(site), s.uploadPortionsInterval);
  }

  /** With a positive interval, later portions start strictly later. */
  lemma OffsetsIncrease(agent: nat, i: nat, j: nat, s: DocumentUploadSettings, draw: DrawSite -> nat)
    requires ValidDraws(draw, s) && s.uploadPortionsInterval > 0 && i < j
    ensures PortionOffset(agent, i, s, draw) < PortionOffset(agent, j, s, draw)
  {
    var site := PortionStart(agent, i);
    assert IsRandomNext(draw(site), DrawBound(site, s));
    JitterBounds(draw(site), s.uploadPortionsInterval);
    MulStep(i, j, s.uploadPortionsInterval);
  }

  /** A later multiple of `p` is at least one `p` further. */
  lemma {:induction false} MulStep(i: nat, j: nat, p: nat)
    requires i < j
    ensures i * p + p <= j * p
    decreases j - i
  {
    if i + 1 < j {
      MulStep(i, j - 1, p);
      assert j * p == (j - 1) * p + p;
    } else {
      assert j * p == i * p + p;
    }
  }

  /**
   * In sequential order the first unit of a portion waits the jitter alone, below
   * `max(1, UploadInterval / 10)`, and every later unit waits at least `UploadInterval` and less
   * than `UploadInterval + max(1, UploadInterval / 10)`.
   */
  lemma DelayBounds(agent: nat, portionIndex: nat, n: nat, s: DocumentUploadSettings, draw: DrawSite -> nat, k: nat)
    requires ValidDraws(draw, s) && k < n
    ensures k == 0 ==> UnitDelays(agent, portionIndex, n, s, draw)[k] < JitterLimit(s.uploadInterval)
    ensures k > 0 ==> s.uploadInterval <= UnitDelays(agent, portionIndex, n, s, draw)[k]
    ensures k > 0 ==> UnitDelays(agent, portionIndex, n, s, draw)[k] < s.uploadInterval + JitterLimit(s.uploadInterval)
  {
    var site := UnitStart(agent, portionIndex, k);
    assert IsRandomNext(draw(site), DrawBound(site, s));
    JitterBounds(draw(site), s.uploadInterval);
  }

  /**
   * Whether `Task.Delay` accepts every wait of one portion task: its offset and, in sequential
   * order, each unit's delay is at most `maxDelay` milliseconds. A longer wait makes `Task.Delay`
   * throw `ArgumentOutOfRangeException` inside the portion task.
   */
  predicate TaskDelaysFit(task: PortionTask, maxDelay: nat) {
    && task.offset <= maxDelay
    && (task.delivery.OneAtATime? ==>
          forall k :: 0 <= k < |task.delivery.delays| ==> task.delivery.delays[k] <= maxDelay)
  }

  /** Whether `Task.Delay` accepts every wait of an agent's upload tasks. */
  predicate DelaysFit(tasks: seq<PortionTask>, maxDelay: nat) {
    forall i :: 0 <= i < |tasks| ==> TaskDelaysFit(tasks[i], maxDelay)
  }

  /**
   * A sufficient bound: every wait of a plan fits when the portion count times
   * `UploadPortionsInterval` fits and, in sequential order, twice `UploadInterval` fits.
   */
  lemma PlanDelaysFit(agent: nat, files: seq<string>, s: DocumentUploadSettings, order: DocumentUploadOrder,
                      draw: DrawSite -> nat, maxDelay: nat)
    requires ValidDraws(draw, s)
    requires |FilePortions(files, s.portionSize)| * s.uploadPortionsInterval <= maxDelay
    requires order == Sequential ==> 2 * s.uploadInterval <= maxDelay
    ensures DelaysFit(Plan(agent, files, s, order, draw), maxDelay)
  {
    var portions := FilePortions(files, s.portionSize);
    var tasks := Plan(agent, files, s, order, draw);
    forall i | 0 <= i < |tasks|
      ensures TaskDelaysFit(tasks[i], maxDelay)
    {
      assert tasks[i] == PortionPlan(agent, i, portions[i], s, order, draw);
      OffsetBounds(agent, i, s, draw);
      MulStep(i, |portions|, s.uploadPortionsInterval);
      if tasks[i].delivery.OneAtATime? {
        var n := |tasks[i].units|;
        forall k | 0 <= k < n
          ensures tasks[i].delivery.delays[k] <= maxDelay
        {
          DelayBounds(agent, i, n, s, draw, k);
        }
      }
    }
  }

  /**
   * The limit is reached: two files in portions of one and an `UploadPortionsInterval` above the
   * limit give a second portion whose offset `Task.Delay` refuses.
   */
  lemma LatePortionBreaksDelays(agent: nat, files: seq<string>, s: DocumentUploadSettings, order: DocumentUploadOrder,
                                draw: DrawSite -> nat, maxDelay: nat)
    requires |files| == 2 && s.portionSize == 1 && s.uploadPortionsInterval > maxDelay
    ensures !DelaysFit(Plan(agent, files, s, order, draw), maxDelay)
  {
    assert Pages(Skip(files, 1), 1) == [files[1..]] + Pages([], 1);
    assert Pages(files, 1) == [files[..1]] + Pages(Skip(files, 1), 1);
    var tasks := Plan(agent, files, s, order, draw);
    assert tasks[1].offset >= s.uploadPortionsInterval;
  }

  /**
   * The limit is reached in sequential order: two files in one portion uploaded one by one and an
   * `UploadInterval` above the limit give a second delay that `Task.Delay` refuses.
   */
  lemma LateUnitBreaksDelays(agent: nat, files: seq<string>, s: DocumentUploadSettings,
                             draw: DrawSite -> nat, maxDelay: nat)
    requires |files| == 2 && s.portionSize <= 0 && s.batchSize <= 0 && s.uploadInterval > maxDelay
    ensures !DelaysFit(Plan(agent, files, s, Sequential, draw), maxDelay)
  {
    var tasks := Plan(agent, files, s, Sequential, draw);
    assert FilePortions(files, s.portionSize) == [files];
    assert tasks[0].units == Singles(files) && |Singles(files)| == 2;
    assert tasks[0] == PortionPlan(agent, 0, files, s, Sequential, draw);
    var delays := UnitDelays(agent, 0, 2, s, draw);
    assert tasks[0].delivery.delays == delays;
    assert delays[1] == DelayBeforeUpload(false, s, draw(UnitStart(agent, 0, 1)));
  }

  function Sum(xs: seq<nat>): nat {
    if |xs| == 0 then 0 else xs[0] + Sum(xs[1..])
  }

  lemma {:induction false} SumAppend(xs: seq<nat>, x: nat)
    ensures Sum(xs + [x]) == Sum(xs) + x
  {
    if |xs| > 0 {
      assert (xs + [x])[1..] == xs[1..] + [x];
      SumAppend(xs[1..], x);
    }
  }

  /**
   * Unit `k` of a sequential portion is not uploaded before the portion has waited
   * `k * UploadInterval` in delays alone, whatever the uploads before it took.
   */
  lemma {:induction false} SequentialWaitGrows(agent: nat, portionIndex: nat, n: nat, s: DocumentUploadSettings,
                                               draw: DrawSite -> nat, k: nat)
    requires ValidDraws(draw, s) && k < n
    ensures Sum(UnitDelays(agent, portionIndex, n, s, draw)[..k + 1]) >= k * s.uploadInterval
  {
    var delays := UnitDelays(agent, portionIndex, n, s, draw);
    if k > 0 {
      SequentialWaitGrows(agent, portionIndex, n, s, draw, k - 1);
      assert delays[..k + 1] == delays[..k] + [delays[k]];
      SumAppend(delays[..k], delays[k]);
      DelayBounds(agent, portionIndex, n, s, draw, k);
    }
  }

  /**
   * Both orders cut the same portions into the same units and start them at the same offsets;
   * they differ only in the delivery, and a sequential portion has one delay per unit.
   */
  lemma OrdersShareSchedule(agent: nat, files: seq<string>, s: DocumentUploadSettings, draw: DrawSite -> nat)
    ensures |Plan(agent, files, s, Parallel, draw)| == |Plan(agent, files, s, Sequential, draw)|
    ensures forall i :: 0 <= i < |Plan(agent, files, s, Parallel, draw)| ==>
      var p, q := Plan(agent, files, s, Parallel, draw)[i], Plan(agent, files, s, Sequential, draw)[i];
      && p.offset == q.offset && p.units == q.units
      && p.delivery == Concurrent
      && q.delivery.OneAtATime? && |q.delivery.delays| == |q.units|
  {
  }

  /**
   * Three files, `PortionSize = 2`, discrete mode, sequential order: two portions, of two files and
   * of one, each file uploaded on its own, one after the other.
   */
  lemma ThreeFilesInPortionsOfTwo(agent: nat, files: seq<string>, s: DocumentUploadSettings, draw: DrawSite -> nat)
    requires |files| == 3 && s.portionSize == 2 && s.batchSize == 0
    ensures var tasks := Plan(agent, files, s, Sequential, draw);
      && |tasks| == 2
      && tasks[0].units == [Single(files[0]), Single(files[1])]
      && tasks[1].units == [Single(files[2])]
      && tasks[0].delivery.OneAtATime? && |tasks[0].delivery.delays| == 2
      && tasks[1].delivery.OneAtATime? && |tasks[1].delivery.delays| == 1
  {
    var rest := Skip(files, 2);
    assert rest == files[2..];
    assert Pages(rest, 2) == [rest] + Pages([], 2);
    assert Pages(files, 2) == [files[..2]] + Pages(rest, 2);
  }

  /**
   * Five files, no portioning, `BatchSize = 2`, parallel order: one portion of three batches, of
   * two, two and one files, uploaded at once.
   */
  lemma FiveFilesInBatchesOfTwo(agent: nat, files: seq<string>, s: DocumentUploadSettings, draw: DrawSite -> nat)
    requires |files| == 5 && s.portionSize <= 0 && s.batchSize == 2
    ensures var tasks := Plan(agent, files, s, Parallel, draw);
      && |tasks| == 1
      && tasks[0].units == [Batch(files[..2]), Batch(files[2..4]), Batch(files[4..])]
      && tasks[0].delivery == Concurrent
  {
    var r1 := Skip(files, 2);
    var r2 := Skip(r1, 2);
    assert r1 == files[2..];
    assert Take(r1, 2) == files[2..4];
    assert r2 == files[4..];
    assert Pages(r2, 2) == [r2] + Pages([], 2);
    assert Pages(r1, 2) == [files[2..4]] + Pages(r2, 2);
    assert Pages(files, 2) == [files[..2]] + Pages(r1, 2);
  }
}
