/**
 * LevelFilter: shows every item of one level. One background task per level; a registry of the
 * tasks that have not completed lets the consumer leave a level and come back to it without
 * fetching it again.
 */
module LevelFilter {
  import opened Items
  import opened Callback
  import opened FilterSteps

  /** hasSRSLevelInfo: a fixed capability of this filter. */
  const HasSRSLevelInfo: bool := true

  /**
   * The batches a level task publishes, in order: the radicals that have a character (one batch),
   * each radical without one (singly, after its image lookup), the kanji, the vocabulary. A failed
   * fetch publishes nothing for its step and the later steps still run.
   */
  function LevelBatches(c: Catalog, loadImage: Radical -> bool): seq<seq<Item>>
  {
    RadicalBatches(c) + ImageBatches(Glyphless(c), loadImage) + KanjiBatches(c) + VocabBatches(c)
  }

  /** The asynchronous task that fetches one level and remembers everything it published. */
  class Task {
    const owner: LevelFilter
    const level: int
    var allItems: seq<Item>
    /** Set by onPostExecute; the framework runs it once, after every progress update. */
    ghost var Finished: bool

    constructor (owner: LevelFilter, level: int)
      ensures this.owner == owner && this.level == level
      ensures allItems == [] && !Finished
    {
      this.owner := owner;
      this.level := level;
      allItems := [];
      Finished := false;
    }

    /**
     * The background work, given what the catalog returns for `level` and whether each radical
     * image loads. Returns the batches handed to publishProgress, in order, and the result.
     */
    method DoInBackground(c: Catalog, loadImage: Radical -> bool) returns (batches: seq<seq<Item>>, ok: bool)
      ensures batches == LevelBatches(c, loadImage)
      ensures ok <==> JobSucceeds(c, loadImage)
    {
      ok, batches := true, [];
      var imgrad: seq<Radical> := [];
      if c.radicals.Some? {
        var list;
        list, imgrad := SplitRadicals(c.radicals.value);
        batches := batches + [RadicalItems(list)];
      } else {
        ok := false;
      }
      assert batches == RadicalBatches(c) && imgrad == Glyphless(c);
      assert ok == c.radicals.Some?;

      var images, loaded := LoadImages(imgrad, loadImage);
      batches := batches + images;
      ok := ok && loaded;
      ghost var soFar := batches;

      if c.kanji.Some? {
        batches := batches + [KanjiItems(c.kanji.value)];
      } else {
        ok := false;
      }
      assert batches == soFar + KanjiBatches(c);
      soFar := batches;

      if c.vocabulary.Some? {
        batches := batches + [VocabItems(c.vocabulary.value)];
      } else {
        ok := false;
      }
      assert batches == soFar + VocabBatches(c);
    }

    /** onProgressUpdate: records the batch and forwards it if this task is the attached one. */
    method OnProgressUpdate(batch: seq<Item>)
      requires owner.Valid() && this in owner.Launched && !Finished
      modifies this`allItems, owner`trace
      ensures owner.Valid()
      ensures allItems == old(allItems) + batch
      ensures owner.task == this ==> owner.trace == old(owner.trace) + [AddData(batch)]
      ensures owner.task != this ==> owner.trace == old(owner.trace)
    {
      DisplayedStep(owner.trace, AddData(batch));
      allItems := allItems + batch;
      owner.Update(this, batch);
    }

    /** onPostExecute: the task is over; the filter drops it from the registry. */
    method OnPostExecute(ok: bool)
      requires owner.Valid() && this in owner.Launched && !Finished
      modifies this`Finished, owner`pending, owner`trace
      ensures owner.Valid() && Finished
      ensures old(level in owner.pending && owner.pending[level] == this)
      ensures owner.pending == old(owner.pending) - {level}
      ensures owner.task == this ==> owner.trace == old(owner.trace) + [NoMoreData(ok), SelectLevel(level, false)]
      ensures owner.task != this ==> owner.trace == old(owner.trace)
    {
      DisplayedSilent(owner.trace, [NoMoreData(ok), SelectLevel(level, false)]);
      owner.Done(this, allItems, level, ok);
      Finished := true;
    }

    /** reissue: republishes everything collected so far. */
    method Reissue()
      modifies owner`trace
      ensures owner.task == this ==> owner.trace == old(owner.trace) + [AddData(allItems)]
      ensures owner.task != this ==> owner.trace == old(owner.trace)
    {
      owner.Update(this, allItems);
    }
  }

  class LevelFilter {
    /** The tasks that have not completed, by level, whether attached or not. */
    var pending: map<int, Task>
    /** The task allowed to push items to the consumer, or null. */
    var task: Task?
    /** The calls made on the consumer, in order. */
    var trace: seq<Event>
    /** Every task started (execute ()), in order. */
    ghost var Launched: seq<Task>

    /**
     * The registry holds exactly the started tasks that have not completed, each under its own
     * level, so there is at most one running task per level; and the consumer shows exactly what
     * the attached task has collected.
     */
    ghost predicate Valid()
      reads this, Launched
    {
      && Registry()
      && (task != null ==> task in Launched && Displayed(trace) == task.allItems)
    }

    /** The registry part of Valid, which the consumer's trace and the attached task do not affect. */
    ghost predicate Registry()
      reads this`pending, this`Launched, Launched`Finished
    {
      && (forall i :: 0 <= i < |Launched| ==> Launched[i].owner == this)
      && (forall l :: l in pending ==> pending[l] in Launched && pending[l].level == l && !pending[l].Finished)
      && (forall i :: 0 <= i < |Launched| && !Launched[i].Finished ==>
            Launched[i].level in pending && pending[Launched[i].level] == Launched[i])
    }

    constructor ()
      ensures Valid()
      ensures pending == map[] && task == null && trace == [] && Launched == []
    {
      pending := map[];
      task := null;
      trace := [];
      Launched := [];
    }

    /**
     * select: attaches to the registered task of `level` and replays all it has collected, or,
     * when there is none, starts and registers a new one.
     */
    method Select(level: int)
      requires Valid()
      modifies this
      ensures Valid()
      ensures task != null && task.level == level && level in pending && pending[level] == task
      ensures Displayed(trace) == task.allItems
      ensures old(level in pending) ==>
        && task == old(pending[level])
        && pending == old(pending) && Launched == old(Launched)
        && trace == old(trace) + [EnableSorting, ClearData, SelectLevel(level, true), AddData(task.allItems)]
      ensures old(level !in pending) ==>
        && fresh(task) && task.allItems == [] && !task.Finished
        && pending == old(pending)[level := task] && Launched == old(Launched) + [task]
        && trace == old(trace) + [EnableSorting, ClearData, SelectLevel(level, true)]
    {
      trace := trace + [EnableSorting];
      if level !in pending {
        StartTask(level);
      } else {
        RejoinTask(level);
      }
    }

    /** The first branch of select: clears the consumer and starts and registers a new task. */
    method StartTask(level: int)
      requires Valid() && level !in pending
      modifies this
      ensures Valid()
      ensures fresh(task) && task.level == level && task.allItems == [] && !task.Finished
      ensures pending == old(pending)[level := task] && Launched == old(Launched) + [task]
      ensures trace == old(trace) + [ClearData, SelectLevel(level, true)]
    {
      trace := trace + [ClearData, SelectLevel(level, true)];
      assert Displayed(trace) == [] by {
        DisplayedStep(old(trace), ClearData);
        DisplayedSilent(old(trace) + [ClearData], [SelectLevel(level, true)]);
        assert old(trace) + [ClearData] + [SelectLevel(level, true)] == trace;
      }
      task := new Task(this, level);
      Launched := Launched + [task];
      pending := pending[level := task];
      assert forall i :: 0 <= i < |Launched| - 1 ==> Launched[i] == old(Launched)[i];
    }

    /** The second branch of select: clears the consumer, attaches the registered task and replays it. */
    method RejoinTask(level: int)
      requires Valid() && level in pending
      modifies this`task, this`trace
      ensures Valid()
      ensures task == pending[level]
      ensures trace == old(trace) + [ClearData, SelectLevel(level, true), AddData(task.allItems)]
    {
      trace := trace + [ClearData, SelectLevel(level, true)];
      assert Displayed(trace) == [] by {
        DisplayedStep(old(trace), ClearData);
        DisplayedSilent(old(trace) + [ClearData], [SelectLevel(level, true)]);
        assert old(trace) + [ClearData] + [SelectLevel(level, true)] == trace;
      }
      task := pending[level];
      ghost var cleared := trace;
      ghost var replay := old(trace) + [ClearData, SelectLevel(level, true), AddData(task.allItems)];
      assert cleared + [AddData(task.allItems)] == replay;
      DisplayedStep(cleared, AddData(task.allItems));
      assert Registry();
      task.Reissue();
      assert trace == cleared + [AddData(task.allItems)];
      assert Registry();
    }

    /** update: forwards a batch only if it comes from the attached task. */
    method Update(stask: Task, items: seq<Item>)
      modifies this`trace
      ensures stask == task ==> trace == old(trace) + [AddData(items)]
      ensures stask != task ==> trace == old(trace)
    {
      if stask == task {
        trace := trace + [AddData(items)];
      }
    }

    /** done: evicts the task's level; only the attached task ends the load on the consumer. */
    method Done(stask: Task, allItems: seq<Item>, level: int, ok: bool)
      modifies this`pending, this`trace
      ensures pending == old(pending) - {level}
      ensures stask == task ==> trace == old(trace) + [NoMoreData(ok), SelectLevel(level, false)]
      ensures stask != task ==> trace == old(trace)
    {
      pending := pending - {level};
      if stask == task {
        trace := trace + [NoMoreData(ok), SelectLevel(level, false)];
      }
    }

    /** stopTask: detaches without cancelling; the registry is left as it is. */
    method StopTask() returns (stopped: bool)
      requires Valid()
      modifies this`task
      ensures Valid()
      ensures stopped <==> old(task) != null
      ensures task == null
    {
      if task != null {
        task := null;
        stopped := true;
      } else {
        stopped := false;
      }
    }

    /** flush: nothing is cached beyond the registry, so nothing changes. */
    method Flush()
      ensures unchanged(this)
    {
    }
  }

  /** Every item a level task fetches is published exactly once, radicals in their shown form. */
  lemma LevelTaskShowsEverything(c: Catalog, loadImage: Radical -> bool)
    ensures multiset(Flatten(LevelBatches(c, loadImage))) == multiset(Shown(c, loadImage))
  {
    var rb, ib, kb, vb := RadicalBatches(c), ImageBatches(Glyphless(c), loadImage), KanjiBatches(c), VocabBatches(c);
    FlattenAppend(rb + ib + kb, vb);
    FlattenAppend(rb + ib, kb);
    FlattenAppend(rb, ib);
    assert Flatten(kb) == if c.kanji.Some? then KanjiItems(c.kanji.value) else [];
    assert Flatten(vb) == if c.vocabulary.Some? then VocabItems(c.vocabulary.value) else [];
    if c.radicals.Some? {
      assert Flatten(rb) == RadicalItems(WithCharacter(c.radicals.value));
      RadicalsShownOnce(c.radicals.value, loadImage);
    }
  }

  /**
   * Leaving a level and coming back to it before its task completes starts no second task: the
   * registered one is attached again and replayed.
   */
  method LeaveAndReturn(f: LevelFilter, level: int)
    requires f.Valid()
    modifies f
    ensures f.Valid()
    ensures f.task != null && level in f.pending && f.pending[level] == f.task
    ensures |f.Launched| <= |old(f.Launched)| + 1
    ensures Displayed(f.trace) == f.task.allItems
  {
    f.Select(level);
    ghost var first := f.task;
    var _ := f.StopTask();
    f.Select(level);
    assert f.task == first;
  }
}
