/** The calls a fetcher makes on its Filter.Callback (the item fragment), kept as a trace. */
module Callback {
  import opened Items

  datatype Event =
    | EnableSorting                           // enableSorting (true, true, true, true)
    | ClearData                               // clearData (filter)
    | SelectLevel(level: int, loading: bool)  // selectLevel (filter, level, spinner)
    | SelectOtherFilter(loading: bool)        // selectOtherFilter (filter, spinner)
    | AddData(items: seq<Item>)               // addData (filter, items)
    | NoMoreData(ok: bool)                    // noMoreData (filter, ok)

  /** What the consumer shows after `trace`: every item added since the last `ClearData`, in order. */
  function Displayed(trace: seq<Event>): seq<Item>
  {
    if trace == [] then []
    else
      var last := trace[|trace| - 1];
      if last.ClearData? then []
      else if last.AddData? then Displayed(trace[..|trace| - 1]) + last.items
      else Displayed(trace[..|trace| - 1])
  }

  /** The displayed items after one more event. */
  lemma DisplayedStep(trace: seq<Event>, e: Event)
    ensures Displayed(trace + [e])
         == if e.ClearData? then [] else if e.AddData? then Displayed(trace) + e.items else Displayed(trace)
  {
    assert (trace + [e])[..|trace|] == trace;
  }

  /** Events that neither clear nor add leave the displayed items as they are. */
  predicate Silent(e: Event)
  {
    !e.ClearData? && !e.AddData?
  }

  lemma {:induction false} DisplayedSilent(trace: seq<Event>, more: seq<Event>)
    requires forall i :: 0 <= i < |more| ==> Silent(more[i])
    ensures Displayed(trace + more) == Displayed(trace)
    decreases |more|
  {
    if more != [] {
      var m := more[..|more| - 1];
      assert (trace + more)[..|trace + more| - 1] == trace + m;
      DisplayedSilent(trace, m);
    } else {
      assert trace + more == trace;
    }
  }
}
