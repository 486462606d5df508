/**
 * NetworkEngine: the statistics demand queue. Charts ask for item kinds; requests are served one
 * at a time, in order, by a background job that fetches only the kinds not already cached and
 * feeds every chart session that wants them.
 */
module NetworkEngine {
  import opened Wrappers
  import opened Items

  /** Number of vocabulary levels fetched by one call. */
  const BunchSize: nat := 50

  /** What a chart session receives (the State interface). */
  datatype Message =
    | NewRadical(radicals: seq<Radical>)
    | NewKanji(kanji: seq<Kanji>)
    | NewVocab(vocab: seq<Vocabulary>)
    | Done(ok: bool)

  /**
   * The calls the job makes on the connection, on the charts and on their sessions, and the
   * progress values it publishes. A session is named by the index of the chart that returned it.
   */
  datatype Action =
    | GetUserInformation
    | StartUpdate(chart: nat, levels: nat, types: set<Kind>)
    | GetRadicals
    | GetKanji
    | GetVocabulary(window: seq<int>)
    | Deliver(state: nat, message: Message)
    | Progress(percent: int)

  /**
   * What the remote service returns to one job: the user's level, the radicals, the kanji, and
   * the vocabulary of each window of levels; `None` is a call that threw an IOException.
   */
  datatype Remote = Remote(
    level: Option<nat>,
    radicals: Option<seq<Radical>>,
    kanji: Option<seq<Kanji>>,
    vocabulary: seq<int> -> Option<seq<Vocabulary>>)

  /** Whether chart `c`'s startUpdate (levels, types) returns a session rather than null. */
  type Accepts = (nat, nat, set<Kind>) -> bool

  /** A job's result, the calls it made, and the sessions it collected. */
  datatype Outcome = Outcome(ok: bool, log: seq<Action>, states: seq<nat>)

  /** The result and calls of a part of the job. */
  datatype Run = Run(ok: bool, log: seq<Action>)

  function Min(a: int, b: int): int
  {
    if a <= b then a else b
  }

  /** The consecutive integers lo, lo + 1, ..., hi - 1. */
  function Range(lo: int, hi: int): (r: seq<int>)
    requires lo <= hi
    ensures |r| == hi - lo
    ensures forall k :: 0 <= k < |r| ==> r[k] == lo + k
  {
    seq(hi - lo, k requires 0 <= k < hi - lo => lo + k)
  }

  /** The levels fetched by one vocabulary call starting at level i: at most BunchSize of them. */
  function Window(i: int, levels: nat): seq<int>
    requires i <= levels
  {
    Range(i, i + Min(BunchSize, levels - i + 1))
  }

  /** The vocabulary windows from level i up to `levels`, in order. */
  function Windows(i: int, levels: nat): seq<seq<int>>
    decreases levels + 1 - i
  {
    if i > levels then [] else [Window(i, levels)] + Windows(i + |Window(i, levels)|, levels)
  }

  /** The levels of a sequence of windows, in order. */
  function Concat(ws: seq<seq<int>>): seq<int>
  {
    if ws == [] then [] else ws[0] + Concat(ws[1..])
  }

  /** The sessions' share of one broadcast: every session, in order, gets `m`. */
  function Deliveries(states: seq<nat>, m: Message): (r: seq<Action>)
    ensures |r| == |states|
    ensures forall k :: 0 <= k < |r| ==> r[k] == Deliver(states[k], m)
  {
    seq(|states|, k requires 0 <= k < |states| => Deliver(states[k], m))
  }

  /** The startUpdate calls on the first k charts, in order. */
  function Starts(k: nat, levels: nat, types: set<Kind>): seq<Action>
  {
    seq(k, c requires 0 <= c < k => StartUpdate(c, levels, types))
  }

  /** The sessions that the first k charts return, in chart order. */
  function Sessions(k: nat, levels: nat, types: set<Kind>, accepts: Accepts): seq<nat>
  {
    if k == 0 then []
    else Sessions(k - 1, levels, types, accepts) + (if accepts(k - 1, levels, types) then [k - 1] else [])
  }

  /**
   * The progress published once the vocabulary up to level i - 1 is in: the two units of the
   * radicals and kanji plus one per level, out of levels + 2.
   */
  function VocabProgress(i: int, levels: nat): int
  {
    100 * (i - 1 + 2) / (levels + 2)
  }

  /** The progress value as the source computes it, without the two units already done. */
  function VocabProgressAsWritten(i: int, levels: nat): int
  {
    100 * (i - 1) / (levels + 2)
  }

  /**
   * The vocabulary loop from level i: one call per window, each followed by a broadcast and a
   * progress value; the first failed call ends the job with false.
   */
  function VocabFrom(i: int, levels: nat, states: seq<nat>, fetch: seq<int> -> Option<seq<Vocabulary>>): Run
    decreases levels + 1 - i
  {
    if i > levels then Run(true, [])
    else
      var w := Window(i, levels);
      var next := i + |w|;
      if fetch(w).None? then Run(false, [GetVocabulary(w)])
      else
        var rest := VocabFrom(next, levels, states, fetch);
        Run(rest.ok, [GetVocabulary(w)] + Deliveries(states, NewVocab(fetch(w).value))
                     + [Progress(VocabProgress(next, levels))] + rest.log)
  }

  /** The radical step: skipped unless radicals are wanted; a failed call ends the job with false. */
  function RadicalStep(types: set<Kind>, states: seq<nat>, remote: Remote): Run
  {
    if RadicalKind !in types then Run(true, [])
    else if remote.radicals.None? then Run(false, [GetRadicals])
    else Run(true, [GetRadicals] + Deliveries(states, NewRadical(remote.radicals.value)))
  }

  /** The kanji step: skipped unless kanji are wanted; a failed call ends the job with false. */
  function KanjiStep(types: set<Kind>, states: seq<nat>, remote: Remote): Run
  {
    if KanjiKind !in types then Run(true, [])
    else if remote.kanji.None? then Run(false, [GetKanji])
    else Run(true, [GetKanji] + Deliveries(states, NewKanji(remote.kanji.value)))
  }

  /** The radical and kanji steps, the second progress value, then the vocabulary loop. */
  function Fetches(types: set<Kind>, levels: nat, states: seq<nat>, remote: Remote): Run
  {
    var radicals := RadicalStep(types, states, remote);
    if !radicals.ok then radicals
    else
      var kanji := KanjiStep(types, states, remote);
      if !kanji.ok then Run(false, radicals.log + kanji.log)
      else
        var head := radicals.log + kanji.log + [Progress(100 * 2 / (levels + 2))];
        if VocabularyKind !in types then Run(true, head)
        else
          var vocab := VocabFrom(1, levels, states, remote.vocabulary);
          Run(vocab.ok, head + vocab.log)
  }

  /**
   * The whole background job for the kinds `types`: nothing at all for an empty request;
   * otherwise the level lookup (1 when it fails), a startUpdate on every chart, and, unless the
   * lookup failed, the first progress value and the fetches.
   */
  function Job(types: set<Kind>, charts: nat, accepts: Accepts, remote: Remote): Outcome
  {
    if types == {} then Outcome(true, [], [])
    else
      var levels := if remote.level.Some? then remote.level.value else 1;
      var states := Sessions(charts, levels, types, accepts);
      var opening := [GetUserInformation] + Starts(charts, levels, types);
      if remote.level.None? then Outcome(false, opening, states)
      else
        var rest := Fetches(types, levels, states, remote);
        Outcome(rest.ok, opening + [Progress(100 * 1 / (levels + 2))] + rest.log, states)
  }

  /** A request's kinds as the job sees them (PendingTask). */
  class PendingTask {
    var types: set<Kind>

    constructor (types: set<Kind>)
      ensures this.types == types
    {
      this.types := types;
    }

    /** clear: drops the kinds in `atypes`; answers whether any kind is left to fetch. */
    method Clear(atypes: set<Kind>) returns (nonEmpty: bool)
      modifies this
      ensures types == old(types) - atypes
      ensures nonEmpty <==> types != {}
    {
      var rest := atypes;
      while rest != {}
        invariant rest <= atypes
        invariant types == old(types) - (atypes - rest)
        decreases rest
      {
        var t :| t in rest;
        types := types - {t};
        rest := rest - {t};
      }
      nonEmpty := types != {};
    }
  }

  /** The asynchronous job serving one request. */
  class Task {
    const engine: NetworkEngine
    const task: PendingTask
    /** The chart sessions collected by startUpdate. */
    var states: seq<nat>

    constructor (engine: NetworkEngine, task: PendingTask)
      ensures this.engine == engine && this.task == task && states == []
    {
      this.engine := engine;
      this.task := task;
      states := [];
    }

    /**
     * The background work, given what the remote service returns and which charts open a session.
     * Returns the job's result and the calls it made, in order.
     */
    method DoInBackground(remote: Remote, accepts: Accepts) returns (ok: bool, log: seq<Action>)
      requires states == []
      modifies this`states
      ensures Outcome(ok, log, states) == Job(task.types, engine.charts, accepts, remote)
    {
      var types := task.types;
      if types == {} {
        return true, [];
      }
      var failed := false;
      var levels: nat;
      if remote.level.Some? {
        levels := remote.level.value;
      } else {
        failed := true;
        levels := 1;
      }
      var opening;
      states, opening := StartCharts(engine.charts, levels, types, accepts);
      log := [GetUserInformation] + opening;
      if failed {
        return false, log;
      }
      var fetched;
      ok, fetched := FetchKinds(types, levels, states, remote);
      log := log + [Progress(100 * 1 / (levels + 2))] + fetched;
    }

    /**
     * onPostExecute: tells every session how the job went, then reports to the engine.
     * Returns the calls made on the sessions.
     */
    method OnPostExecute(ok: bool) returns (delivered: seq<Action>)
      requires engine.Valid() && engine.running == this
      modifies engine, engine.tasks
      ensures delivered == Deliveries(states, Done(ok))
      ensures engine.Valid()
      ensures ok ==> engine.availableTypes == old(engine.availableTypes) + old(task.types)
      ensures !ok ==> engine.availableTypes == old(engine.availableTypes)
      ensures engine.tasks == old(engine.tasks)[1..]
      ensures forall k :: 1 <= k < |engine.tasks| ==> engine.tasks[k].types == old(engine.tasks[k + 1].types)
      ensures engine.tasks == [] ==> engine.running == null
      ensures engine.tasks != [] ==>
        && fresh(engine.running) && engine.running.task == engine.tasks[0]
        && engine.tasks[0].types == old(engine.tasks[1].types) - engine.availableTypes
    {
      delivered := Broadcast(states, Done(ok));
      engine.Completed(task, ok);
    }
  }

  /** The fetching part of doInBackground, after the first progress value: radicals, kanji, vocabulary. */
  method FetchKinds(types: set<Kind>, levels: nat, states: seq<nat>, remote: Remote) returns (ok: bool, log: seq<Action>)
    ensures Run(ok, log) == Fetches(types, levels, states, remote)
  {
    ok, log := FetchRadicals(types, states, remote);
    if !ok {
      return;
    }
    var kanji;
    ok, kanji := FetchKanji(types, states, remote);
    log := log + kanji;
    if !ok {
      return;
    }
    log := log + [Progress(100 * 2 / (levels + 2))];
    if VocabularyKind in types {
      var vocab;
      ok, vocab := FetchVocabulary(levels, states, remote.vocabulary);
      log := log + vocab;
    }
  }

  /** The radical try block of doInBackground. */
  method FetchRadicals(types: set<Kind>, states: seq<nat>, remote: Remote) returns (ok: bool, log: seq<Action>)
    ensures Run(ok, log) == RadicalStep(types, states, remote)
  {
    ok, log := true, [];
    if RadicalKind in types {
      log := log + [GetRadicals];
      if remote.radicals.None? {
        return false, log;
      }
      var fed := Broadcast(states, NewRadical(remote.radicals.value));
      log := log + fed;
    }
  }

  /** The kanji try block of doInBackground. */
  method FetchKanji(types: set<Kind>, states: seq<nat>, remote: Remote) returns (ok: bool, log: seq<Action>)
    ensures Run(ok, log) == KanjiStep(types, states, remote)
  {
    ok, log := true, [];
    if KanjiKind in types {
      log := log + [GetKanji];
      if remote.kanji.None? {
        return false, log;
      }
      var fed := Broadcast(states, NewKanji(remote.kanji.value));
      log := log + fed;
    }
  }

  /** The startUpdate loop: every chart is asked, and the sessions returned are kept in order. */
  method StartCharts(charts: nat, levels: nat, types: set<Kind>, accepts: Accepts)
    returns (states: seq<nat>, log: seq<Action>)
    ensures states == Sessions(charts, levels, types, accepts)
    ensures log == Starts(charts, levels, types)
  {
    states, log := [], [];
    for c := 0 to charts
      invariant states == Sessions(c, levels, types, accepts)
      invariant log == Starts(c, levels, types)
    {
      log := log + [StartUpdate(c, levels, types)];
      if accepts(c, levels, types) {
        states := states + [c];
      }
    }
  }

  /** The `for (State s : states)` loops: sends `m` to every session, in order. */
  method Broadcast(states: seq<nat>, m: Message) returns (sent: seq<Action>)
    ensures sent == Deliveries(states, m)
  {
    sent := [];
    for k := 0 to |states|
      invariant |sent| == k
      invariant forall j :: 0 <= j < k ==> sent[j] == Deliver(states[j], m)
    {
      sent := sent + [Deliver(states[k], m)];
    }
  }

  /** The `bunch` array of one vocabulary call: the next window of levels, from level i. */
  method FillBunch(i: int, levels: nat) returns (bunch: array<int>, next: int)
    requires 1 <= i <= levels
    ensures fresh(bunch)
    ensures bunch[..] == Window(i, levels) && next == i + bunch.Length
  {
    bunch := new int[Min(BunchSize, levels - i + 1)];
    next := i;
    var j := 0;
    while j < BunchSize && next <= levels
      invariant 0 <= j <= bunch.Length && next == i + j
      invariant forall k :: 0 <= k < j ==> bunch[k] == i + k
    {
      bunch[j] := next;
      next := next + 1;
      j := j + 1;
    }
    assert j == bunch.Length;
  }

  /** The vocabulary loop of doInBackground: window after window until the levels run out or a call fails. */
  method FetchVocabulary(levels: nat, states: seq<nat>, fetch: seq<int> -> Option<seq<Vocabulary>>)
    returns (ok: bool, log: seq<Action>)
    ensures Run(ok, log) == VocabFrom(1, levels, states, fetch)
  {
    log := [];
    var i := 1;
    ghost var whole := VocabFrom(1, levels, states, fetch);
    while i <= levels
      invariant 1 <= i <= levels + 1
      invariant whole.ok == VocabFrom(i, levels, states, fetch).ok
      invariant whole.log == log + VocabFrom(i, levels, states, fetch).log
      decreases levels + 1 - i
    {
      var fetched, step, next := FetchWindow(i, levels, states, fetch);
      ghost var before := log;
      log := log + step;
      if !fetched {
        return false, log;
      }
      assert whole.log == before + (step + VocabFrom(next, levels, states, fetch).log);
      i := next;
    }
    ok := true;
  }

  /**
   * One turn of the vocabulary loop: fills the window from level i, fetches it and, if the call
   * succeeds, feeds the sessions and publishes the progress. Returns whether the call succeeded,
   * the calls made and the next level.
   */
  method FetchWindow(i: int, levels: nat, states: seq<nat>, fetch: seq<int> -> Option<seq<Vocabulary>>)
    returns (fetched: bool, step: seq<Action>, next: int)
    requires 1 <= i <= levels
    ensures i < next <= levels + 1
    ensures !fetched ==> VocabFrom(i, levels, states, fetch) == Run(false, step)
    ensures fetched ==>
      var rest := VocabFrom(next, levels, states, fetch);
      VocabFrom(i, levels, states, fetch) == Run(rest.ok, step + rest.log)
  {
    var bunch;
    bunch, next := FillBunch(i, levels);
    var w := bunch[..];
    VocabStep(i, levels, states, fetch);
    step := [GetVocabulary(w)];
    var v := fetch(w);
    if v.None? {
      return false, step, next;
    }
    var fed := Broadcast(states, NewVocab(v.value));
    step := step + fed + [Progress(VocabProgress(next, levels))];
    fetched := true;
  }

  /** One turn of the vocabulary loop. */
  lemma VocabStep(i: int, levels: nat, states: seq<nat>, fetch: seq<int> -> Option<seq<Vocabulary>>)
    requires 1 <= i <= levels
    ensures var w := Window(i, levels);
      var next := i + |w|;
      var r := VocabFrom(i, levels, states, fetch);
      && i < next <= levels + 1
      && (fetch(w).None? ==> r == Run(false, [GetVocabulary(w)]))
      && (fetch(w).Some? ==>
            var rest := VocabFrom(next, levels, states, fetch);
            r.ok == rest.ok
            && r.log == [GetVocabulary(w)] + Deliveries(states, NewVocab(fetch(w).value))
                        + [Progress(VocabProgress(next, levels))] + rest.log)
  {
  }

  /** The coordinator: the request queue, the cache of available kinds and the charts. */
  /** No request object appears twice in the queue (each request creates a fresh one). */
  ghost predicate Distinct(tasks: seq<PendingTask>)
  {
    forall a, b :: 0 <= a < b < |tasks| ==> tasks[a] != tasks[b]
  }

  class NetworkEngine {
    /** The registered charts, 0 .. charts - 1. */
    const charts: nat
    /** The requests not yet completed, oldest first; the head is the one being served. */
    var tasks: seq<PendingTask>
    /** The kinds already loaded by a successful job. */
    var availableTypes: set<Kind>
    /** The job serving the head of the queue, if any. */
    ghost var running: Task?

    /**
     * Exactly one job runs while the queue is not empty, and it serves the head; the head's kinds
     * have been reduced to those not cached; every request in the queue is its own object.
     */
    ghost predicate Valid()
      reads this, tasks
    {
      && Distinct(tasks)
      && (running != null <==> tasks != [])
      && (running != null ==> running.engine == this && running.task == tasks[0])
      && (tasks != [] ==> tasks[0].types !! availableTypes)
    }

    constructor (charts: nat)
      ensures Valid()
      ensures this.charts == charts && tasks == [] && availableTypes == {} && running == null
    {
      this.charts := charts;
      tasks := [];
      availableTypes := {};
      running := null;
    }

    /** request: queues the kinds; a job starts only if none was running. */
    method Request(types: set<Kind>) returns (task: PendingTask)
      requires Valid()
      modifies this
      ensures Valid()
      ensures fresh(task) && tasks == old(tasks) + [task] && availableTypes == old(availableTypes)
      ensures old(tasks) == [] ==>
        fresh(running) && running.task == task && running.states == [] && task.types == types - availableTypes
      ensures old(tasks) != [] ==> running == old(running) && task.types == types
    {
      var empty := tasks == [];
      task := new PendingTask(types);
      tasks := tasks + [task];
      if empty {
        RunQueue();
      }
    }

    /** completed: caches the kinds of a successful job, pops the head and serves the next request. */
    method Completed(task: PendingTask, ok: bool)
      requires Valid() && running != null && task == running.task
      modifies this, tasks
      ensures Valid()
      ensures ok ==> availableTypes == old(availableTypes) + old(task.types)
      ensures !ok ==> availableTypes == old(availableTypes)
      ensures tasks == old(tasks)[1..]
      ensures forall k :: 1 <= k < |tasks| ==> tasks[k].types == old(tasks[k + 1].types)
      ensures tasks == [] ==> running == null
      ensures tasks != [] ==>
        && fresh(running) && running.task == tasks[0] && running.states == []
        && tasks[0].types == old(tasks[1].types) - availableTypes
    {
      if ok {
        availableTypes := availableTypes + task.types;
      }
      tasks := tasks[1..];
      running := null;
      RunQueue();
    }

    /** runQueue: starts a job for the head of the queue, without the kinds already cached. */
    method RunQueue()
      requires running == null && Distinct(tasks)
      modifies this, tasks
      ensures Valid()
      ensures tasks == old(tasks) && availableTypes == old(availableTypes)
      ensures forall k :: 1 <= k < |tasks| ==> tasks[k].types == old(tasks[k].types)
      ensures tasks == [] ==> running == null
      ensures tasks != [] ==>
        && fresh(running) && running.task == tasks[0] && running.states == []
        && tasks[0].types == old(tasks[0].types) - availableTypes
    {
      if tasks != [] {
        var task := tasks[0];
        var _ := task.Clear(availableTypes);
        var job := new Task(this, task);
        running := job;
      }
    }

    /** flush: forgets the cache; the queue is left as it is. */
    method Flush()
      requires Valid()
      modifies this`availableTypes
      ensures Valid()
      ensures availableTypes == {}
    {
      availableTypes := {};
    }
  }

  // Properties of the job.

  /** The windows of levels i .. levels, laid end to end, are exactly those levels: no gap, no overlap. */
  lemma {:induction false} WindowsCover(i: int, levels: nat)
    requires 1 <= i <= levels + 1
    ensures Concat(Windows(i, levels)) == Range(i, levels + 1)
    decreases levels + 1 - i
  {
    if i <= levels {
      var w := Window(i, levels);
      var next := i + |w|;
      var ws := Windows(i, levels);
      WindowsCover(next, levels);
      assert ws == [w] + Windows(next, levels);
      assert ws[0] == w && ws[1..] == Windows(next, levels);
      assert Concat(ws) == w + Range(next, levels + 1);
      RangeSplit(i, next, levels + 1);
    } else {
      assert Range(i, levels + 1) == [];
    }
  }

  lemma RangeSplit(lo: int, mid: int, hi: int)
    requires lo <= mid <= hi
    ensures Range(lo, hi) == Range(lo, mid) + Range(mid, hi)
  {
  }

  /** There are as many windows as BunchSize-sized runs needed to cover the levels. */
  lemma {:induction false} WindowsCount(i: int, levels: nat)
    requires 1 <= i <= levels + 1
    ensures |Windows(i, levels)| == (levels - i + BunchSize) / BunchSize
    decreases levels + 1 - i
  {
    if i <= levels {
      var w := Window(i, levels);
      WindowsCount(i + |w|, levels);
      assert |Windows(i, levels)| == 1 + |Windows(i + |w|, levels)|;
    }
  }

  /**
   * Window k starts BunchSize * k levels after i and holds BunchSize levels, or what is left at
   * the end.
   */
  lemma {:induction false} WindowsShape(i: int, levels: nat)
    requires 1 <= i <= levels + 1
    ensures forall k :: 0 <= k < |Windows(i, levels)| ==>
      && i + BunchSize * k <= levels
      && Windows(i, levels)[k] == Range(i + BunchSize * k, Min(i + BunchSize * (k + 1), levels + 1))
    decreases levels + 1 - i
  {
    if i <= levels {
      var w := Window(i, levels);
      var ws := Windows(i, levels);
      var tail := Windows(i + |w|, levels);
      WindowsShape(i + |w|, levels);
      assert ws == [w] + tail;
      if |w| == BunchSize {
        forall k | 1 <= k < |ws|
          ensures i + BunchSize * k <= levels
          ensures ws[k] == Range(i + BunchSize * k, Min(i + BunchSize * (k + 1), levels + 1))
        {
          assert ws[k] == tail[k - 1];
          assert i + BunchSize + BunchSize * (k - 1) == i + BunchSize * k;
        }
      } else {
        assert tail == [];
      }
    }
  }

  /** For example, 120 levels are fetched as 1-50, 51-100 and 101-120. */
  lemma WindowsOf120()
    ensures Windows(1, 120) == [Range(1, 51), Range(51, 101), Range(101, 121)]
  {
    WindowsShape(1, 120);
    WindowsCount(1, 120);
  }

  /** The vocabulary loop succeeds iff the call for every window succeeds. */
  lemma {:induction false} VocabOk(i: int, levels: nat, states: seq<nat>, fetch: seq<int> -> Option<seq<Vocabulary>>)
    requires 1 <= i
    ensures VocabFrom(i, levels, states, fetch).ok
        <==> forall k :: 0 <= k < |Windows(i, levels)| ==> fetch(Windows(i, levels)[k]).Some?
    decreases levels + 1 - i
  {
    if i <= levels {
      var w := Window(i, levels);
      var ws := Windows(i, levels);
      VocabOk(i + |w|, levels, states, fetch);
      assert ws[0] == w && ws[1..] == Windows(i + |w|, levels);
      if fetch(w).Some? {
        var rest := ws[1..];
        VocabStep(i, levels, states, fetch);
        assert VocabFrom(i, levels, states, fetch).ok == VocabFrom(i + |w|, levels, states, fetch).ok;
        if VocabFrom(i + |w|, levels, states, fetch).ok {
          forall k | 0 <= k < |ws|
            ensures fetch(ws[k]).Some?
          {
            if k > 0 {
              assert ws[k] == rest[k - 1];
            }
          }
        } else {
          var k :| 0 <= k < |rest| && fetch(rest[k]).None?;
          assert ws[k + 1] == rest[k];
          assert !VocabFrom(i, levels, states, fetch).ok;
          assert !(forall k :: 0 <= k < |ws| ==> fetch(ws[k]).Some?);
        }
      } else {
        VocabStep(i, levels, states, fetch);
        assert !VocabFrom(i, levels, states, fetch).ok;
        assert fetch(ws[0]).None?;
      }
    } else {
      assert Windows(i, levels) == [];
      assert VocabFrom(i, levels, states, fetch).ok;
    }
  }

  /** The windows a sequence of calls asks the vocabulary for, in order. */
  function Requested(log: seq<Action>): seq<seq<int>>
  {
    if log == [] then []
    else (if log[0].GetVocabulary? then [log[0].window] else []) + Requested(log[1..])
  }

  lemma {:induction false} RequestedAppend(a: seq<Action>, b: seq<Action>)
    ensures Requested(a + b) == Requested(a) + Requested(b)
    decreases |a|
  {
    if a != [] {
      assert (a + b)[1..] == a[1..] + b;
      RequestedAppend(a[1..], b);
    } else {
      assert a + b == b;
    }
  }

  lemma {:induction false} RequestedNone(log: seq<Action>)
    requires forall k :: 0 <= k < |log| ==> !log[k].GetVocabulary?
    ensures Requested(log) == []
    decreases |log|
  {
    if log != [] {
      RequestedNone(log[1..]);
    }
  }

  /** A turn of the vocabulary loop asks for its window and nothing else. */
  lemma RequestedTurn(w: seq<int>, fed: seq<Action>, p: int, rest: seq<Action>)
    requires forall k :: 0 <= k < |fed| ==> !fed[k].GetVocabulary?
    ensures Requested([GetVocabulary(w)] + fed + [Progress(p)] + rest) == [w] + Requested(rest)
  {
    RequestedNone(fed);
    RequestedNone([Progress(p)]);
    RequestedAppend([GetVocabulary(w)], fed);
    RequestedAppend([GetVocabulary(w)] + fed, [Progress(p)]);
    RequestedAppend([GetVocabulary(w)] + fed + [Progress(p)], rest);
    assert Requested([GetVocabulary(w)]) == [w] by {
      RequestedNone([]);
    }
  }

  /**
   * The vocabulary loop asks for the windows in order: all of them when it succeeds, otherwise
   * those up to the first one whose call failed.
   */
  lemma {:induction false} VocabRequests(i: int, levels: nat, states: seq<nat>, fetch: seq<int> -> Option<seq<Vocabulary>>)
    requires 1 <= i
    ensures var r := VocabFrom(i, levels, states, fetch);
      && (r.ok ==> Requested(r.log) == Windows(i, levels))
      && (!r.ok ==> var asked := Requested(r.log);
            && asked != [] && asked <= Windows(i, levels) && fetch(asked[|asked| - 1]).None?
            && (forall k :: 0 <= k < |asked| - 1 ==> fetch(asked[k]).Some?))
    decreases levels + 1 - i
  {
    if i <= levels {
      var w := Window(i, levels);
      var next := i + |w|;
      VocabStep(i, levels, states, fetch);
      assert Windows(i, levels) == [w] + Windows(next, levels);
      if fetch(w).Some? {
        var fed := Deliveries(states, NewVocab(fetch(w).value));
        var rest := VocabFrom(next, levels, states, fetch);
        VocabRequests(next, levels, states, fetch);
        RequestedTurn(w, fed, VocabProgress(next, levels), rest.log);
      } else {
        assert Requested([GetVocabulary(w)]) == [w] by {
          RequestedNone([]);
        }
      }
    } else {
      assert Requested([]) == [];
    }
  }

  /**
   * onPostExecute gets true iff the request was empty, or the level lookup and every call for a
   * wanted kind succeeded, each vocabulary window included.
   */
  lemma JobOk(types: set<Kind>, charts: nat, accepts: Accepts, remote: Remote)
    ensures Job(types, charts, accepts, remote).ok <==>
      || types == {}
      || (&& remote.level.Some?
          && (RadicalKind in types ==> remote.radicals.Some?)
          && (KanjiKind in types ==> remote.kanji.Some?)
          && (VocabularyKind in types ==>
                forall k :: 0 <= k < |Windows(1, remote.level.value)| ==>
                  remote.vocabulary(Windows(1, remote.level.value)[k]).Some?))
  {
    if remote.level.Some? {
      VocabOk(1, remote.level.value, Sessions(charts, remote.level.value, types, accepts), remote.vocabulary);
    }
  }

  /** A call on the connection that fetches items. */
  predicate IsFetch(a: Action)
  {
    a.GetRadicals? || a.GetKanji? || a.GetVocabulary?
  }

  /**
   * An empty request, or one whose kinds are all cached once runQueue has cleared them, costs
   * nothing: no lookup, no startUpdate, no fetch, and it succeeds.
   */
  lemma CachedRequestIsFree(types: set<Kind>, availableTypes: set<Kind>, charts: nat, accepts: Accepts, remote: Remote)
    requires types <= availableTypes
    ensures Job(types - availableTypes, charts, accepts, remote) == Outcome(true, [], [])
  {
    assert types - availableTypes == {};
  }

  /**
   * A failed level lookup still calls startUpdate on every chart, with 1 level, and then returns
   * false without fetching anything.
   */
  lemma FailedLookup(types: set<Kind>, charts: nat, accepts: Accepts, remote: Remote)
    requires types != {} && remote.level.None?
    ensures var r := Job(types, charts, accepts, remote);
      && !r.ok
      && r.states == Sessions(charts, 1, types, accepts)
      && (forall c :: 0 <= c < charts ==> StartUpdate(c, 1, types) in r.log)
      && (forall k :: 0 <= k < |r.log| ==> !IsFetch(r.log[k]))
  {
    var r := Job(types, charts, accepts, remote);
    assert r.log == [GetUserInformation] + Starts(charts, 1, types);
    forall c | 0 <= c < charts
      ensures StartUpdate(c, 1, types) in r.log
    {
      assert r.log[c + 1] == StartUpdate(c, 1, types);
    }
  }

  /** A failed radical call returns false at once: the last call is getRadicals, and no kanji or vocabulary is fetched. */
  lemma RadicalFailureStops(types: set<Kind>, charts: nat, accepts: Accepts, remote: Remote)
    requires RadicalKind in types && remote.level.Some? && remote.radicals.None?
    ensures var r := Job(types, charts, accepts, remote);
      && !r.ok && r.log != [] && r.log[|r.log| - 1] == GetRadicals
      && (forall k :: 0 <= k < |r.log| ==> !r.log[k].GetKanji? && !r.log[k].GetVocabulary? && !r.log[k].Deliver?)
  {
    var levels := remote.level.value;
    var r := Job(types, charts, accepts, remote);
    assert r.log == [GetUserInformation] + Starts(charts, levels, types) + [Progress(100 * 1 / (levels + 2))] + [GetRadicals];
  }

  /** A failed kanji call returns false at once: the last call is getKanji, and no vocabulary is fetched. */
  lemma KanjiFailureStops(types: set<Kind>, charts: nat, accepts: Accepts, remote: Remote)
    requires KanjiKind in types && remote.level.Some? && remote.kanji.None?
    requires RadicalKind in types ==> remote.radicals.Some?
    ensures var r := Job(types, charts, accepts, remote);
      && !r.ok && r.log != [] && r.log[|r.log| - 1] == GetKanji
      && (forall k :: 0 <= k < |r.log| ==> !r.log[k].GetVocabulary?)
  {
    var levels := remote.level.value;
    var states := Sessions(charts, levels, types, accepts);
    var r := Job(types, charts, accepts, remote);
    var radicals := RadicalStep(types, states, remote);
    assert r.log == [GetUserInformation] + Starts(charts, levels, types) + [Progress(100 * 1 / (levels + 2))]
                    + (radicals.log + [GetKanji]);
  }

  /** The sessions are the charts whose startUpdate returned one, each once, in chart order. */
  predicate Increasing(ss: seq<nat>)
  {
    forall a, b :: 0 <= a < b < |ss| ==> ss[a] < ss[b]
  }

  lemma {:induction false} SessionsAre(k: nat, levels: nat, types: set<Kind>, accepts: Accepts)
    ensures forall s: nat :: s in Sessions(k, levels, types, accepts) <==> s < k && accepts(s, levels, types)
    ensures Increasing(Sessions(k, levels, types, accepts))
  {
    if k > 0 {
      var init := Sessions(k - 1, levels, types, accepts);
      SessionsAre(k - 1, levels, types, accepts);
      var ss := Sessions(k, levels, types, accepts);
      if accepts(k - 1, levels, types) {
        assert ss == init + [k - 1];
        forall a, b | 0 <= a < b < |ss|
          ensures ss[a] < ss[b]
        {
          assert ss[a] == init[a];
          if b == |init| {
            assert init[a] in init;
          } else {
            assert ss[b] == init[b];
          }
        }
      } else {
        assert ss == init;
      }
    }
  }

  /** Every call in `log` made on a session is made on one of `states`. */
  predicate FeedsOnly(log: seq<Action>, states: seq<nat>)
  {
    forall a :: a in log && a.Deliver? ==> a.state in states
  }

  lemma DeliveriesFeedOnly(states: seq<nat>, m: Message)
    ensures FeedsOnly(Deliveries(states, m), states)
  {
    var log := Deliveries(states, m);
    forall a | a in log && a.Deliver?
      ensures a.state in states
    {
      var k :| 0 <= k < |log| && log[k] == a;
      assert a.state == states[k];
    }
  }

  /** Only the charts' sessions are fed: every delivery of the vocabulary loop goes to one of `states`. */
  lemma {:induction false} VocabFeedsSessions(i: int, levels: nat, states: seq<nat>, fetch: seq<int> -> Option<seq<Vocabulary>>)
    ensures FeedsOnly(VocabFrom(i, levels, states, fetch).log, states)
    decreases levels + 1 - i
  {
    if i <= levels {
      var w := Window(i, levels);
      VocabFeedsSessions(i + |w|, levels, states, fetch);
      if fetch(w).Some? {
        DeliveriesFeedOnly(states, NewVocab(fetch(w).value));
      }
    }
  }

  /**
   * Only the charts whose startUpdate returned a session receive batches: every delivery of the
   * job goes to one of its sessions.
   */
  lemma JobFeedsSessions(types: set<Kind>, charts: nat, accepts: Accepts, remote: Remote)
    ensures var r := Job(types, charts, accepts, remote);
      FeedsOnly(r.log, r.states)
  {
    if types != {} {
      var levels := if remote.level.Some? then remote.level.value else 1;
      var states := Sessions(charts, levels, types, accepts);
      assert FeedsOnly(Starts(charts, levels, types), states);
      if remote.level.Some? {
        VocabFeedsSessions(1, levels, states, remote.vocabulary);
        if remote.radicals.Some? {
          DeliveriesFeedOnly(states, NewRadical(remote.radicals.value));
        }
        if remote.kanji.Some? {
          DeliveriesFeedOnly(states, NewKanji(remote.kanji.value));
        }
      }
    }
  }

  /** Integer division by a positive number keeps the order. */
  lemma DivMonotone(a: int, b: int, d: int)
    requires 0 <= a <= b && 0 < d
    ensures a / d <= b / d
  {
    var qa, qb := a / d, b / d;
    assert d * qa <= a;
    assert b < d * qb + d;
    assert d * qa < d * (qb + 1);
    LessCancel(d, qa, qb + 1);
  }

  /** A positive factor can be cancelled from a strict inequality. */
  lemma LessCancel(d: int, x: int, y: int)
    requires 0 < d && d * x < d * y
    ensures x < y
  {
    if x >= y {
      MulMonotone(d, y, x);
      assert false;
    }
  }

  lemma MulMonotone(d: int, x: int, y: int)
    requires 0 < d && x <= y
    ensures d * x <= d * y
  {
  }

  /**
   * The corrected progress never goes back: it starts from the value published after the kanji
   * and rises with the level.
   */
  lemma VocabProgressRises(i: int, j: int, levels: nat)
    requires 1 <= i <= j
    ensures 100 * 2 / (levels + 2) <= VocabProgress(i, levels) <= VocabProgress(j, levels)
  {
    DivMonotone(100 * 2, 100 * (i + 1), levels + 2);
    DivMonotone(100 * (i + 1), 100 * (j + 1), levels + 2);
  }

  /** The corrected progress after the last window is 100. */
  lemma VocabProgressFinishes(levels: nat)
    ensures VocabProgress(levels + 1, levels) == 100
  {
  }

  /** As written, one level gives 33 after the vocabulary, down from 66 after the kanji. */
  lemma ProgressAsWrittenGoesBack()
    ensures VocabProgressAsWritten(2, 1) == 33 && 100 * 2 / (1 + 2) == 66
  {
  }

  /** As written, the progress after the last window never reaches 100. */
  lemma ProgressAsWrittenNeverFinishes(levels: nat)
    ensures VocabProgressAsWritten(levels + 1, levels) < 100
  {
    var d := levels + 2;
    var q := 100 * levels / d;
    assert d * q <= 100 * levels;
    assert d * q < d * 100;
    LessCancel(d, q, 100);
  }
}
