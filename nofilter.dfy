/**
 * NoFilter: shows every item up to the user's level. One background task at a time fetches the
 * whole catalog; a consumer that leaves and comes back while it runs is replayed what it has so far.
 */
module NoFilter {
  import opened Items
  import opened Callback
  import opened FilterSteps
  import LevelFilter

  /** hasSRSLevelInfo: a fixed capability of this filter. */
  const HasSRSLevelInfo: bool := true

  /**
   * The batches the task publishes, in order: the radicals that have a character, the kanji, the
   * vocabulary and, last, each radical without a character after its image lookup.
   */
  function NoBatches(c: Catalog, loadImage: Radical -> bool): seq<seq<Item>>
  {
    RadicalBatches(c) + KanjiBatches(c) + VocabBatches(c) + ImageBatches(Glyphless(c), loadImage)
  }

  /** The asynchronous task that fetches the catalog and remembers everything it published. */
  class Task {
    const owner: NoFilter
    var allItems: seq<Item>
    /** Set by onPostExecute; the framework runs it once, after every progress update. */
    ghost var Finished: bool

    constructor (owner: NoFilter)
      ensures this.owner == owner
      ensures allItems == [] && !Finished
    {
      this.owner := owner;
      allItems := [];
      Finished := false;
    }

    /**
     * The background work, given what the catalog returns and whether each radical image loads.
     * Returns the batches handed to publishProgress, in order, and the result.
     */
    method DoInBackground(c: Catalog, loadImage: Radical -> bool) returns (batches: seq<seq<Item>>, ok: bool)
      ensures batches == NoBatches(c, loadImage)
      ensures ok <==> JobSucceeds(c, loadImage)
    {
      ok, batches := true, [];
      var imgrad: seq<Radical> := [];
      if c.radicals.Some? {
        var list;
        list, imgrad := SplitRadicals(c.radicals.value);
        batches := batches + [RadicalItems(list)];
      } else {
        ok := false;
      }
      assert batches == RadicalBatches(c) && imgrad == Glyphless(c);
      assert ok == c.radicals.Some?;
      ghost var soFar := batches;

      if c.kanji.Some? {
        batches := batches + [KanjiItems(c.kanji.value)];
      } else {
        ok := false;
      }
      assert batches == soFar + KanjiBatches(c);
      soFar := batches;

      if c.vocabulary.Some? {
        batches := batches + [VocabItems(c.vocabulary.value)];
      } else {
        ok := false;
      }
      assert batches == soFar + VocabBatches(c);
      assert ok == (c.radicals.Some? && c.kanji.Some? && c.vocabulary.Some?);

      // Images come last, so that the regular items are shown as soon as possible.
      var images, loaded := LoadImages(imgrad, loadImage);
      batches := batches + images;
      ok := ok && loaded;
    }

    /** onProgressUpdate: records the batch and forwards it if this task is the attached one. */
    method OnProgressUpdate(batch: seq<Item>)
      requires owner.Valid() && this in owner.Launched
      modifies this`allItems, owner`trace
      ensures owner.Valid()
      ensures allItems == old(allItems) + batch
      ensures owner.task == this ==> owner.trace == old(owner.trace) + [AddData(batch)]
      ensures owner.task != this ==> owner.trace == old(owner.trace)
    {
      DisplayedStep(owner.trace, AddData(batch));
      allItems := allItems + batch;
      owner.Update(this, batch);
    }

    /** onPostExecute: the task is over; if it is the attached one, the filter becomes idle. */
    method OnPostExecute(ok: bool)
      requires owner.Valid() && this in owner.Launched && !Finished
      modifies this`Finished, owner`task, owner`trace
      ensures owner.Valid() && Finished
      ensures old(owner.task) == this ==>
        owner.task == null && owner.trace == old(owner.trace) + [NoMoreData(ok), SelectOtherFilter(false)]
      ensures old(owner.task) != this ==> owner.task == old(owner.task) && owner.trace == old(owner.trace)
    {
      owner.Done(this, allItems, ok);
      Finished := true;
    }

    /** reissue: republishes everything collected so far. */
    method Reissue()
      modifies owner`trace
      ensures owner.task == this ==> owner.trace == old(owner.trace) + [AddData(allItems)]
      ensures owner.task != this ==> owner.trace == old(owner.trace)
    {
      owner.Update(this, allItems);
    }
  }

  class NoFilter {
    /** The task that performs the job, or null when idle. */
    var task: Task?
    /** The calls made on the consumer, in order. */
    var trace: seq<Event>
    /** Every task started (execute ()), in order. */
    ghost var Launched: seq<Task>

    /**
     * Every started task belongs to this filter; the attached task, if any, is still running, and
     * the consumer shows exactly what it has collected.
     */
    ghost predicate Valid()
      reads this, Launched
    {
      && (forall i :: 0 <= i < |Launched| ==> Launched[i].owner == this)
      && (task != null ==> task in Launched && !task.Finished && Displayed(trace) == task.allItems)
    }

    constructor ()
      ensures Valid()
      ensures task == null && trace == [] && Launched == []
    {
      task := null;
      trace := [];
      Launched := [];
    }

    /**
     * select: replays the running task to the consumer, or, when idle, starts a new one. Either way
     * the consumer is cleared first and ends up showing what the attached task has collected.
     */
    method Select()
      requires Valid()
      modifies this
      ensures Valid()
      ensures task != null && !task.Finished && Displayed(trace) == task.allItems
      ensures old(task) != null ==>
        && task == old(task) && Launched == old(Launched)
        && trace == old(trace) + [EnableSorting, ClearData, SelectOtherFilter(true), AddData(task.allItems)]
      ensures old(task) == null ==>
        && fresh(task) && task.allItems == [] && Launched == old(Launched) + [task]
        && trace == old(trace) + [EnableSorting, ClearData, SelectOtherFilter(true)]
    {
      trace := trace + [EnableSorting];
      if task != null {
        RejoinTask();
      } else {
        StartTask();
      }
    }

    /** The first branch of select: clears the consumer and replays the running task. */
    method RejoinTask()
      requires Valid() && task != null
      modifies this`trace
      ensures Valid()
      ensures trace == old(trace) + [ClearData, SelectOtherFilter(true), AddData(task.allItems)]
    {
      trace := trace + [ClearData, SelectOtherFilter(true)];
      assert Displayed(trace) == [] by {
        DisplayedStep(old(trace), ClearData);
        DisplayedSilent(old(trace) + [ClearData], [SelectOtherFilter(true)]);
        assert old(trace) + [ClearData] + [SelectOtherFilter(true)] == trace;
      }
      ghost var cleared := trace;
      assert cleared + [AddData(task.allItems)]
          == old(trace) + [ClearData, SelectOtherFilter(true), AddData(task.allItems)];
      DisplayedStep(cleared, AddData(task.allItems));
      task.Reissue();
      assert trace == cleared + [AddData(task.allItems)];
    }

    /** The second branch of select: clears the consumer, then starts and attaches a new task. */
    method StartTask()
      requires Valid() && task == null
      modifies this
      ensures Valid()
      ensures fresh(task) && task.allItems == [] && !task.Finished && Launched == old(Launched) + [task]
      ensures trace == old(trace) + [ClearData, SelectOtherFilter(true)]
    {
      trace := trace + [ClearData, SelectOtherFilter(true)];
      assert Displayed(trace) == [] by {
        DisplayedStep(old(trace), ClearData);
        DisplayedSilent(old(trace) + [ClearData], [SelectOtherFilter(true)]);
        assert old(trace) + [ClearData] + [SelectOtherFilter(true)] == trace;
      }
      task := new Task(this);
      Launched := Launched + [task];
      assert forall i :: 0 <= i < |Launched| - 1 ==> Launched[i] == old(Launched)[i];
    }

    /** update: forwards a batch only if it comes from the attached task. */
    method Update(stask: Task, items: seq<Item>)
      modifies this`trace
      ensures stask == task ==> trace == old(trace) + [AddData(items)]
      ensures stask != task ==> trace == old(trace)
    {
      if stask == task {
        trace := trace + [AddData(items)];
      }
    }

    /** done: only the attached task ends the load on the consumer, and detaches itself. */
    method Done(stask: Task, allItems: seq<Item>, ok: bool)
      requires Valid()
      modifies this`task, this`trace
      ensures Valid()
      ensures old(task) == stask ==> task == null && trace == old(trace) + [NoMoreData(ok), SelectOtherFilter(false)]
      ensures old(task) != stask ==> task == old(task) && trace == old(trace)
    {
      if stask == task {
        task := null;
        trace := trace + [NoMoreData(ok), SelectOtherFilter(false)];
      }
    }

    /** stopTask: detaches without cancelling; the task runs on, unheard. */
    method StopTask() returns (stopped: bool)
      requires Valid()
      modifies this`task
      ensures Valid()
      ensures stopped <==> old(task) != null
      ensures task == null
    {
      if task != null {
        task := null;
        stopped := true;
      } else {
        stopped := false;
      }
    }

    /** flush: NoFilter caches nothing, so nothing changes. */
    method Flush()
      ensures unchanged(this)
    {
    }
  }

  /** Every item the task fetches is published exactly once, radicals in their shown form. */
  lemma NoTaskShowsEverything(c: Catalog, loadImage: Radical -> bool)
    ensures multiset(Flatten(NoBatches(c, loadImage))) == multiset(Shown(c, loadImage))
  {
    var rb, kb, vb, ib := RadicalBatches(c), KanjiBatches(c), VocabBatches(c), ImageBatches(Glyphless(c), loadImage);
    FlattenAppend(rb + kb + vb, ib);
    FlattenAppend(rb + kb, vb);
    FlattenAppend(rb, kb);
    var fk := Flatten(kb);
    var fv := Flatten(vb);
    assert fk == if c.kanji.Some? then KanjiItems(c.kanji.value) else [];
    assert fv == if c.vocabulary.Some? then VocabItems(c.vocabulary.value) else [];
    var sr := if c.radicals.Some? then RadicalItems(ShownRadicals(c.radicals.value, loadImage)) else [];
    RadicalPartShown(c, loadImage);
    MovedPartKeepsMultiset(Flatten(rb), fk, fv, Flatten(ib), sr);
  }

  /** The radical batch and the image batches together show every fetched radical once. */
  lemma RadicalPartShown(c: Catalog, loadImage: Radical -> bool)
    ensures multiset(Flatten(RadicalBatches(c)) + Flatten(ImageBatches(Glyphless(c), loadImage)))
         == multiset(if c.radicals.Some? then RadicalItems(ShownRadicals(c.radicals.value, loadImage)) else [])
  {
    if c.radicals.Some? {
      assert Flatten(RadicalBatches(c)) == RadicalItems(WithCharacter(c.radicals.value));
      RadicalsShownOnce(c.radicals.value, loadImage);
    }
  }

  /** Publishing the image part last instead of first keeps the multiset of published items. */
  lemma MovedPartKeepsMultiset(fr: seq<Item>, fk: seq<Item>, fv: seq<Item>, fi: seq<Item>, sr: seq<Item>)
    requires multiset(fr + fi) == multiset(sr)
    ensures multiset(fr + fk + fv + fi) == multiset(sr + fk + fv)
  {
    calc {
      multiset(fr + fk + fv + fi);
      multiset(fr) + multiset(fk) + multiset(fv) + multiset(fi);
      multiset(fr + fi) + multiset(fk) + multiset(fv);
      multiset(sr + fk + fv);
    }
  }

  /**
   * Given the same catalog answers, the two filters publish the same items; they differ only in
   * when the radicals drawn from images arrive. (Their results agree too: both DoInBackground
   * contracts give JobSucceeds.)
   */
  lemma SameItemsAsLevelFilter(c: Catalog, loadImage: Radical -> bool)
    ensures multiset(Flatten(NoBatches(c, loadImage))) == multiset(Flatten(LevelFilter.LevelBatches(c, loadImage)))
  {
    NoTaskShowsEverything(c, loadImage);
    LevelFilter.LevelTaskShowsEverything(c, loadImage);
  }

  /** stopTask forgets the only pointer, so a select after it starts a fresh task instead of rejoining. */
  method StopThenSelect(f: NoFilter)
    requires f.Valid()
    modifies f
    ensures f.Valid()
    ensures fresh(f.task) && f.task.allItems == [] && f.task !in old(f.Launched)
    ensures f.Launched == old(f.Launched) + [f.task]
  {
    var _ := f.StopTask();
    f.Select();
  }
}
