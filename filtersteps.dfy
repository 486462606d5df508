/**
 * The steps common to the background jobs of LevelFilter and NoFilter: splitting the fetched
 * radicals into those with a Unicode character and those that need an image, and resolving the
 * images one radical at a time.
 */
module FilterSteps {
  import opened Wrappers
  import opened Items

  /** What the remote catalog returns to one job; `None` is a call that threw an IOException. */
  datatype Catalog = Catalog(
    radicals: Option<seq<Radical>>,
    kanji: Option<seq<Kanji>>,
    vocabulary: Option<seq<Vocabulary>>)

  /** The placeholder character given to a radical whose image could not be loaded. */
  const Placeholder: string := "?"

  predicate HasCharacter(r: Radical)
  {
    r.character.Some?
  }

  /** The radicals that keep their place in the first batch: those with a character, in fetched order. */
  function WithCharacter(rs: seq<Radical>): seq<Radical>
  {
    if rs == [] then []
    else
      var last := rs[|rs| - 1];
      WithCharacter(rs[..|rs| - 1]) + (if HasCharacter(last) then [last] else [])
  }

  /** The radicals without a character, in fetched order: those resolved one at a time. */
  function WithoutCharacter(rs: seq<Radical>): seq<Radical>
  {
    if rs == [] then []
    else
      var last := rs[|rs| - 1];
      WithoutCharacter(rs[..|rs| - 1]) + (if HasCharacter(last) then [] else [last])
  }

  /** The first part holds only radicals with a character, the second only radicals without one. */
  lemma {:induction false} SplitParts(rs: seq<Radical>)
    ensures forall i :: 0 <= i < |WithCharacter(rs)| ==> HasCharacter(WithCharacter(rs)[i])
    ensures forall i :: 0 <= i < |WithoutCharacter(rs)| ==> !HasCharacter(WithoutCharacter(rs)[i])
    decreases |rs|
  {
    if rs != [] {
      SplitParts(rs[..|rs| - 1]);
    }
  }

  /** Splitting keeps the order: the split of a concatenation is the concatenation of the splits. */
  lemma {:induction false} SplitAppend(a: seq<Radical>, b: seq<Radical>)
    ensures WithCharacter(a + b) == WithCharacter(a) + WithCharacter(b)
    ensures WithoutCharacter(a + b) == WithoutCharacter(a) + WithoutCharacter(b)
    decreases |b|
  {
    if b == [] {
      assert a + b == a;
    } else {
      var b' := b[..|b| - 1];
      assert (a + b)[..|a + b| - 1] == a + b';
      SplitAppend(a, b');
    }
  }

  /** Splitting loses and duplicates nothing: the two parts together are a permutation of the input. */
  lemma {:induction false} SplitIsPermutation(rs: seq<Radical>)
    ensures multiset(WithCharacter(rs)) + multiset(WithoutCharacter(rs)) == multiset(rs)
    decreases |rs|
  {
    if rs != [] {
      var init := rs[..|rs| - 1];
      SplitIsPermutation(init);
      assert rs == init + [rs[|rs| - 1]];
    }
  }

  /** The split of a prefix one radical longer. */
  lemma SplitStep(rs: seq<Radical>, k: nat)
    requires k < |rs|
    ensures WithCharacter(rs[..k + 1]) == WithCharacter(rs[..k]) + (if HasCharacter(rs[k]) then [rs[k]] else [])
    ensures WithoutCharacter(rs[..k + 1]) == WithoutCharacter(rs[..k]) + (if HasCharacter(rs[k]) then [] else [rs[k]])
  {
    assert rs[..k + 1][..k] == rs[..k];
  }

  /**
   * The iterator loop of doInBackground: walks the fetched list, moving every radical without a
   * character out of it (`i.remove ()`) and into `imgrad`.
   */
  method SplitRadicals(fetched: seq<Radical>) returns (list: seq<Radical>, imgrad: seq<Radical>)
    ensures list == WithCharacter(fetched)
    ensures imgrad == WithoutCharacter(fetched)
  {
    list, imgrad := fetched, [];
    var i := 0;
    // `k` radicals of `fetched` have been visited; `kept` are those left in the list.
    ghost var k, kept := 0, [];
    while i < |list|
      invariant 0 <= k <= |fetched|
      invariant kept == WithCharacter(fetched[..k]) && imgrad == WithoutCharacter(fetched[..k])
      invariant list == kept + fetched[k..] && i == |kept|
      decreases |fetched| - k
    {
      SplitStep(fetched, k);
      RemoveAt(kept, fetched[k..]);
      assert fetched[k..][1..] == fetched[k + 1..];
      if list[i].character.None? {
        imgrad := imgrad + [list[i]];
        list := list[..i] + list[i + 1..];
      } else {
        kept := kept + [list[i]];
        i := i + 1;
      }
      k := k + 1;
    }
    assert fetched[..k] == fetched;
  }

  /** Removing, or stepping over, the element at the seam of two sequences. */
  lemma RemoveAt<T>(a: seq<T>, b: seq<T>)
    requires b != []
    ensures (a + b)[|a|] == b[0]
    ensures (a + b)[..|a|] + (a + b)[|a| + 1..] == a + b[1..]
    ensures a + b == (a + [b[0]]) + b[1..]
  {
    assert (a + b)[..|a|] == a;
    assert (a + b)[|a| + 1..] == b[1..];
  }

  /** The radical published after its image was looked up: unchanged, or with the placeholder. */
  function Resolved(r: Radical, loaded: bool): Radical
  {
    if loaded then r else r.(character := Some(Placeholder))
  }

  /** One singleton batch per radical without a character, in order. */
  function ImageBatches(imgrad: seq<Radical>, loadImage: Radical -> bool): seq<seq<Item>>
  {
    if imgrad == [] then []
    else
      var last := imgrad[|imgrad| - 1];
      ImageBatches(imgrad[..|imgrad| - 1], loadImage) + [[RadicalItem(Resolved(last, loadImage(last)))]]
  }

  /** The image batches are singletons, one per radical, each the radical or its placeholder form. */
  lemma {:induction false} ImageBatchesAt(imgrad: seq<Radical>, loadImage: Radical -> bool)
    ensures |ImageBatches(imgrad, loadImage)| == |imgrad|
    ensures forall i :: 0 <= i < |imgrad| ==>
      ImageBatches(imgrad, loadImage)[i]
        == [RadicalItem(if loadImage(imgrad[i]) then imgrad[i] else imgrad[i].(character := Some(Placeholder)))]
    decreases |imgrad|
  {
    if imgrad != [] {
      ImageBatchesAt(imgrad[..|imgrad| - 1], loadImage);
    }
  }

  predicate AllImagesLoaded(imgrad: seq<Radical>, loadImage: Radical -> bool)
  {
    forall i :: 0 <= i < |imgrad| ==> loadImage(imgrad[i])
  }

  /**
   * The image loop of doInBackground: loads each image, substituting the placeholder on failure,
   * and publishes every radical singly whether or not its image loaded.
   */
  method LoadImages(imgrad: seq<Radical>, loadImage: Radical -> bool) returns (batches: seq<seq<Item>>, ok: bool)
    ensures batches == ImageBatches(imgrad, loadImage)
    ensures ok <==> AllImagesLoaded(imgrad, loadImage)
  {
    batches, ok := [], true;
    for n := 0 to |imgrad|
      invariant batches == ImageBatches(imgrad[..n], loadImage)
      invariant ok <==> AllImagesLoaded(imgrad[..n], loadImage)
    {
      var r := imgrad[n];
      if !loadImage(r) {
        r := r.(character := Some(Placeholder));
        ok := false;
      }
      assert imgrad[..n + 1][..n] == imgrad[..n];
      batches := batches + [[RadicalItem(r)]];
    }
    assert imgrad[..|imgrad|] == imgrad;
  }

  /** The job's result: true iff no fetch failed and every image loaded. */
  predicate JobSucceeds(c: Catalog, loadImage: Radical -> bool)
  {
    && c.radicals.Some? && c.kanji.Some? && c.vocabulary.Some?
    && AllImagesLoaded(WithoutCharacter(c.radicals.value), loadImage)
  }

  /** The radicals of a failed radical fetch are never split: nothing needs an image then. */
  function Glyphless(c: Catalog): seq<Radical>
  {
    if c.radicals.Some? then WithoutCharacter(c.radicals.value) else []
  }

  function RadicalBatches(c: Catalog): seq<seq<Item>>
  {
    if c.radicals.Some? then [RadicalItems(WithCharacter(c.radicals.value))] else []
  }

  function KanjiBatches(c: Catalog): seq<seq<Item>>
  {
    if c.kanji.Some? then [KanjiItems(c.kanji.value)] else []
  }

  function VocabBatches(c: Catalog): seq<seq<Item>>
  {
    if c.vocabulary.Some? then [VocabItems(c.vocabulary.value)] else []
  }

  /** Each fetched radical as the consumer ends up showing it, in fetched order. */
  function ShownRadicals(rs: seq<Radical>, loadImage: Radical -> bool): seq<Radical>
  {
    if rs == [] then []
    else
      var last := rs[|rs| - 1];
      ShownRadicals(rs[..|rs| - 1], loadImage) + [if HasCharacter(last) then last else Resolved(last, loadImage(last))]
  }

  /** The items of the image batches are the glyph-less radicals as they are finally shown. */
  lemma {:induction false} ImageBatchesFlatten(imgrad: seq<Radical>, loadImage: Radical -> bool)
    requires forall i :: 0 <= i < |imgrad| ==> !HasCharacter(imgrad[i])
    ensures Flatten(ImageBatches(imgrad, loadImage)) == RadicalItems(ShownRadicals(imgrad, loadImage))
    decreases |imgrad|
  {
    if imgrad != [] {
      var init := imgrad[..|imgrad| - 1];
      var last := imgrad[|imgrad| - 1];
      ImageBatchesFlatten(init, loadImage);
      var bs := ImageBatches(init, loadImage);
      assert (bs + [[RadicalItem(Resolved(last, loadImage(last)))]])[..|bs|] == bs;
      RadicalItemsAppend(ShownRadicals(init, loadImage), [Resolved(last, loadImage(last))]);
    }
  }

  /**
   * Every fetched radical is shown exactly once: as fetched if it has a character, resolved
   * otherwise. The shown radicals are a permutation of the two parts, published separately.
   */
  lemma {:induction false} ShownRadicalsSplit(rs: seq<Radical>, loadImage: Radical -> bool)
    ensures multiset(ShownRadicals(rs, loadImage))
         == multiset(WithCharacter(rs)) + multiset(ShownRadicals(WithoutCharacter(rs), loadImage))
    decreases |rs|
  {
    if rs != [] {
      ShownRadicalsSplit(rs[..|rs| - 1], loadImage);
      if HasCharacter(rs[|rs| - 1]) {
        ShownStepKept(rs, loadImage);
      } else {
        ShownStepResolved(rs, loadImage);
      }
    }
  }

  /** One more radical with a character: it is shown as fetched and joins the first part. */
  lemma ShownStepKept(rs: seq<Radical>, loadImage: Radical -> bool)
    requires rs != [] && HasCharacter(rs[|rs| - 1])
    ensures ShownRadicals(rs, loadImage) == ShownRadicals(rs[..|rs| - 1], loadImage) + [rs[|rs| - 1]]
    ensures WithCharacter(rs) == WithCharacter(rs[..|rs| - 1]) + [rs[|rs| - 1]]
    ensures WithoutCharacter(rs) == WithoutCharacter(rs[..|rs| - 1])
  {
  }

  /** One more radical without a character: it is shown resolved, at the end of the second part. */
  lemma ShownStepResolved(rs: seq<Radical>, loadImage: Radical -> bool)
    requires rs != [] && !HasCharacter(rs[|rs| - 1])
    ensures var last := rs[|rs| - 1];
      ShownRadicals(rs, loadImage) == ShownRadicals(rs[..|rs| - 1], loadImage) + [Resolved(last, loadImage(last))]
    ensures WithCharacter(rs) == WithCharacter(rs[..|rs| - 1])
    ensures var last := rs[|rs| - 1];
      ShownRadicals(WithoutCharacter(rs), loadImage)
        == ShownRadicals(WithoutCharacter(rs[..|rs| - 1]), loadImage) + [Resolved(last, loadImage(last))]
  {
    var w := WithoutCharacter(rs[..|rs| - 1]);
    var last := rs[|rs| - 1];
    assert WithoutCharacter(rs) == w + [last];
    assert (w + [last])[..|w + [last]| - 1] == w;
  }

  /** What a job makes visible when all of it has been published: every item fetched, radicals as shown. */
  function Shown(c: Catalog, loadImage: Radical -> bool): seq<Item>
  {
    (if c.radicals.Some? then RadicalItems(ShownRadicals(c.radicals.value, loadImage)) else [])
    + (if c.kanji.Some? then KanjiItems(c.kanji.value) else [])
    + (if c.vocabulary.Some? then VocabItems(c.vocabulary.value) else [])
  }

  /** Tagging radicals as items commutes with taking multisets. */
  lemma {:induction false} RadicalItemsPermutation(a: seq<Radical>, b: seq<Radical>)
    requires multiset(a) == multiset(b)
    ensures multiset(RadicalItems(a)) == multiset(RadicalItems(b))
    decreases |a|
  {
    if a != [] {
      var x := a[|a| - 1];
      var a' := a[..|a| - 1];
      assert a == a' + [x];
      assert x in multiset(b);
      var j :| 0 <= j < |b| && b[j] == x;
      var b' := b[..j] + b[j + 1..];
      assert b == b[..j] + [x] + b[j + 1..];
      assert multiset(b) == multiset(b[..j]) + multiset{x} + multiset(b[j + 1..]);
      assert multiset(a) == multiset(a') + multiset{x};
      assert multiset(b') == multiset(b[..j]) + multiset(b[j + 1..]);
      assert multiset(a') == multiset(a) - multiset{x};
      assert multiset(b') == multiset(b) - multiset{x};
      RadicalItemsPermutation(a', b');
      RadicalItemsAppend(a', [x]);
      RadicalItemsAppend(b[..j], [x]);
      RadicalItemsAppend(b[..j] + [x], b[j + 1..]);
      RadicalItemsAppend(b[..j], b[j + 1..]);
    } else {
      assert b == [];
    }
  }

  /**
   * The first radical batch and the singleton image batches together show every fetched radical
   * exactly once, in the form ShownRadicals gives it.
   */
  lemma RadicalsShownOnce(rs: seq<Radical>, loadImage: Radical -> bool)
    ensures multiset(RadicalItems(WithCharacter(rs)) + Flatten(ImageBatches(WithoutCharacter(rs), loadImage)))
         == multiset(RadicalItems(ShownRadicals(rs, loadImage)))
  {
    var w := WithCharacter(rs);
    var wo := ShownRadicals(WithoutCharacter(rs), loadImage);
    SplitParts(rs);
    ImageBatchesFlatten(WithoutCharacter(rs), loadImage);
    RadicalItemsAppend(w, wo);
    ShownRadicalsSplit(rs, loadImage);
    RadicalItemsPermutation(w + wo, ShownRadicals(rs, loadImage));
  }
}
