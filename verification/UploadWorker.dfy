/**
 The upload worker's chunked upsert loop: however often it is interrupted between two
 chunks, a run that completes leaves the task table a single complete run leaves.
 */
module UploadWorker {
  import opened Wrappers

  const CHUNK_SIZE: nat := 500

  /** A parsed row, and what an upsert writes of it. */
  datatype Upload = Upload(prompt: string, responseA: string, responseB: string, responseTarget: Option<nat>,
                           category: Option<string>, difficulty: Option<nat>)

  /** Every column an upsert sets. The task's own id is set once, when it is created. */
  datatype Task = Task(id: nat, responseA: string, responseB: string, responseTarget: nat, category: Option<string>,
                       difficulty: Option<nat>)

  /** A campaign's tasks by prompt, the unique key of an upsert. */
  type Tasks = map<string, Task>

  function Written(row: Upload, id: nat, defaultTarget: nat): Task {
    Task(id, row.responseA, row.responseB, if row.responseTarget.Some? then row.responseTarget.value else defaultTarget,
         row.category, row.difficulty)
  }

  /** One upsert: create under a fresh id, or update every column but the id. */
  function Upsert(tasks: Tasks, row: Upload, freshId: nat, defaultTarget: nat): Tasks {
    tasks[row.prompt := Written(row, if row.prompt in tasks then tasks[row.prompt].id else freshId, defaultTarget)]
  }

  /** The upserts of `rows` in order; row `i` creates under `ids[i]`. */
  function UpsertAll(tasks: Tasks, rows: seq<Upload>, ids: seq<nat>, defaultTarget: nat): Tasks
    requires |rows| == |ids|
  {
    if rows == [] then tasks
    else
      var n := |rows| - 1;
      Upsert(UpsertAll(tasks, rows[..n], ids[..n], defaultTarget), rows[n], ids[n], defaultTarget)
  }

  function ChunksOf(rows: nat): nat {
    (rows + CHUNK_SIZE - 1) / CHUNK_SIZE
  }

  function Least(a: nat, b: nat): nat {
    if a <= b then a else b
  }

  datatype Outcome = Done | Interrupted | Failed

  datatype Progress = Progress(processedRows: nat, upsertedRows: nat, chunksCommitted: nat, chunksTotal: nat)

  class TaskTable {
    var tasks: Tasks

    constructor (initial: Tasks)
      ensures tasks == initial
    {
      tasks := initial;
    }

    /** One chunk's transaction. */
    method CommitChunk(rows: seq<Upload>, ids: seq<nat>, from: nat, to: nat, defaultTarget: nat)
      requires from <= to <= |rows| == |ids|
      modifies this
      ensures forall base :: old(tasks) == UpsertAll(base, rows[..from], ids[..from], defaultTarget) ==>
                tasks == UpsertAll(base, rows[..to], ids[..to], defaultTarget)
    {
      for k := from to to
        invariant forall base :: old(tasks) == UpsertAll(base, rows[..from], ids[..from], defaultTarget) ==>
                    tasks == UpsertAll(base, rows[..k], ids[..k], defaultTarget)
      {
        assert rows[..k + 1][..k] == rows[..k] && ids[..k + 1][..k] == ids[..k];
        tasks := Upsert(tasks, rows[k], ids[k], defaultTarget);
      }
    }

    /**
     `processJob`'s loop. `stopBefore` is the chunk before which a shutdown is seen and
     `failAt` the chunk whose transaction throws, both past the end when neither happens.
     */
    method ProcessJob(rows: seq<Upload>, ids: seq<nat>, defaultTarget: nat, stopBefore: nat, failAt: nat)
      returns (outcome: Outcome, progress: Progress)
      requires |rows| == |ids|
      modifies this
      ensures progress.processedRows == progress.upsertedRows == Least(progress.chunksCommitted * 500, |rows|)
      ensures progress.chunksTotal == ChunksOf(|rows|)
      ensures tasks == UpsertAll(old(tasks), rows[..progress.processedRows], ids[..progress.processedRows], defaultTarget)
      ensures outcome == Done <==> stopBefore >= ChunksOf(|rows|) && failAt >= ChunksOf(|rows|)
      ensures outcome == Done ==> progress.processedRows == |rows| && progress.chunksCommitted == progress.chunksTotal
      ensures outcome != Done ==> progress.chunksCommitted == Least(stopBefore, failAt)
      ensures outcome == Interrupted <==> stopBefore < ChunksOf(|rows|) && stopBefore <= failAt
    {
      var processed, committed, total := 0, 0, ChunksOf(|rows|);
      assert rows[..0] == [] && ids[..0] == [];
      var i := 0;
      while i < |rows|
        invariant i == committed * CHUNK_SIZE && processed == Least(i, |rows|)
        invariant committed <= total && committed <= stopBefore && committed <= failAt
        invariant tasks == UpsertAll(old(tasks), rows[..processed], ids[..processed], defaultTarget)
        decreases |rows| + CHUNK_SIZE - i
      {
        ChunkStarts(committed, |rows|);
        if committed == stopBefore { return Interrupted, Progress(processed, processed, committed, total); }
        if committed == failAt { return Failed, Progress(processed, processed, committed, total); }
        var to := Least(i + CHUNK_SIZE, |rows|);
        CommitChunk(rows, ids, processed, to, defaultTarget);
        processed, committed := to, committed + 1;
        i := i + CHUNK_SIZE;
      }
      AllChunks(committed, |rows|);
      outcome, progress := Done, Progress(processed, processed, committed, total);
    }
  }

  lemma ChunkStarts(k: nat, rows: nat)
    requires k * CHUNK_SIZE < rows
    ensures k < ChunksOf(rows)
  {
  }

  lemma AllChunks(k: nat, rows: nat)
    requires k * CHUNK_SIZE >= rows && k <= ChunksOf(rows)
    ensures k == ChunksOf(rows)
  {
  }

  // ----- restarting -----

  /** The row of `rows` that wrote a prompt last, if any did. */
  function LastFor(rows: seq<Upload>, prompt: string): Option<Upload> {
    if rows == [] then None
    else if rows[|rows| - 1].prompt == prompt then Some(rows[|rows| - 1])
    else LastFor(rows[..|rows| - 1], prompt)
  }

  /** An upsert run decides each prompt by its last row, keeps the id of a task it found, and leaves every other task alone. */
  lemma {:induction false} LastRowWins(tasks: Tasks, rows: seq<Upload>, ids: seq<nat>, defaultTarget: nat, prompt: string)
    requires |rows| == |ids|
    ensures var after := UpsertAll(tasks, rows, ids, defaultTarget);
            var last := LastFor(rows, prompt);
            && (prompt in after <==> last.Some? || prompt in tasks)
            && (last.Some? ==>
                  && after[prompt] == Written(last.value, after[prompt].id, defaultTarget)
                  && after[prompt].responseA == last.value.responseA && after[prompt].responseB == last.value.responseB
                  && (last.value.responseTarget == None ==> after[prompt].responseTarget == defaultTarget)
                  && (last.value.responseTarget.Some? ==> after[prompt].responseTarget == last.value.responseTarget.value)
                  && after[prompt].category == last.value.category && after[prompt].difficulty == last.value.difficulty)
            && (last == None && prompt in tasks ==> after[prompt] == tasks[prompt])
            && (prompt in tasks ==> after[prompt].id == tasks[prompt].id)
    decreases |rows|
  {
    if rows != [] {
      var n := |rows| - 1;
      LastRowWins(tasks, rows[..n], ids[..n], defaultTarget, prompt);
    }
  }

  /** Some run of these rows was interrupted after `k` of them, under its own fresh ids and default target. */
  datatype Interruption = Interruption(k: nat, ids: seq<nat>, defaultTarget: nat)

  /** The table after any number of interrupted runs of the same upload. */
  function AfterInterruptions(tasks: Tasks, rows: seq<Upload>, runs: seq<Interruption>): Tasks
    requires forall i :: 0 <= i < |runs| ==> runs[i].k <= |rows| && |runs[i].ids| == runs[i].k
  {
    if runs == [] then tasks
    else
      var n := |runs| - 1;
      UpsertAll(AfterInterruptions(tasks, rows, runs[..n]), rows[..runs[n].k], runs[n].ids, runs[n].defaultTarget)
  }

  lemma {:induction false} LastForPrefix(rows: seq<Upload>, k: nat, prompt: string)
    requires k <= |rows| && LastFor(rows, prompt) == None
    ensures LastFor(rows[..k], prompt) == None
    decreases |rows|
  {
    if k < |rows| {
      assert rows[..|rows| - 1][..k] == rows[..k];
      LastForPrefix(rows[..|rows| - 1], k, prompt);
    } else {
      assert rows[..k] == rows;
    }
  }

  /** Interrupted runs touch only the upload's own prompts, and never move the id of a task that was there. */
  lemma {:induction false} InterruptionsTouchOwn(tasks: Tasks, rows: seq<Upload>, runs: seq<Interruption>, prompt: string)
    requires forall i :: 0 <= i < |runs| ==> runs[i].k <= |rows| && |runs[i].ids| == runs[i].k
    ensures var after := AfterInterruptions(tasks, rows, runs);
            && (prompt in tasks ==> prompt in after && after[prompt].id == tasks[prompt].id)
            && (LastFor(rows, prompt) == None ==>
                  (prompt in after <==> prompt in tasks) && (prompt in tasks ==> after[prompt] == tasks[prompt]))
    decreases |runs|
  {
    if runs != [] {
      var n := |runs| - 1;
      InterruptionsTouchOwn(tasks, rows, runs[..n], prompt);
      LastRowWins(AfterInterruptions(tasks, rows, runs[..n]), rows[..runs[n].k], runs[n].ids, runs[n].defaultTarget, prompt);
      if LastFor(rows, prompt) == None {
        LastForPrefix(rows, runs[n].k, prompt);
      }
    }
  }

  /** The same tasks, apart from the ids an upload minted itself. */
  ghost predicate SameTasks(a: Tasks, b: Tasks, before: Tasks) {
    && (forall p :: p in a <==> p in b)
    && (forall p :: p in a && p in b ==> a[p].(id := 0) == b[p].(id := 0))
    && (forall p :: p in before ==> p in a && p in b && a[p].id == before[p].id == b[p].id)
  }

  /**
   A restart is harmless: any number of interrupted runs followed by one that completes
   leaves the tasks that a single complete run leaves, with the ids of the tasks that
   existed before unchanged.
   */
  lemma RestartIsOneRun(tasks: Tasks, rows: seq<Upload>, runs: seq<Interruption>, ids: seq<nat>, once: seq<nat>, defaultTarget: nat)
    requires |ids| == |once| == |rows|
    requires forall i :: 0 <= i < |runs| ==> runs[i].k <= |rows| && |runs[i].ids| == runs[i].k
    ensures SameTasks(UpsertAll(AfterInterruptions(tasks, rows, runs), rows, ids, defaultTarget),
                      UpsertAll(tasks, rows, once, defaultTarget), tasks)
  {
    var between := AfterInterruptions(tasks, rows, runs);
    var a, b := UpsertAll(between, rows, ids, defaultTarget), UpsertAll(tasks, rows, once, defaultTarget);
    forall p: string
      ensures p in a <==> p in b
      ensures p in a && p in b ==> a[p].(id := 0) == b[p].(id := 0)
      ensures p in tasks ==> p in a && p in b && a[p].id == tasks[p].id == b[p].id
    {
      InterruptionsTouchOwn(tasks, rows, runs, p);
      LastRowWins(between, rows, ids, defaultTarget, p);
      LastRowWins(tasks, rows, once, defaultTarget, p);
    }
  }
}
