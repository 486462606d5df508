/** The catalog items the fetchers publish (com.wanikani.wklib.Item and its subclasses). */
module Items {
  import opened Wrappers

  /** A radical; `character` is `None` when it has no Unicode glyph and must be drawn from an image. */
  datatype Radical = Radical(name: string, character: Option<string>)

  datatype Kanji = Kanji(character: string)

  datatype Vocabulary = Vocabulary(characters: string)

  /** An entry of a published batch, tagged with its kind. */
  datatype Item = RadicalItem(radical: Radical) | KanjiItem(kanji: Kanji) | VocabItem(vocab: Vocabulary)

  /** Item.Type: the kinds a statistics request can ask for. */
  datatype Kind = RadicalKind | KanjiKind | VocabularyKind

  function RadicalItems(rs: seq<Radical>): seq<Item>
  {
    seq(|rs|, i requires 0 <= i < |rs| => RadicalItem(rs[i]))
  }

  function KanjiItems(ks: seq<Kanji>): seq<Item>
  {
    seq(|ks|, i requires 0 <= i < |ks| => KanjiItem(ks[i]))
  }

  function VocabItems(vs: seq<Vocabulary>): seq<Item>
  {
    seq(|vs|, i requires 0 <= i < |vs| => VocabItem(vs[i]))
  }

  /** The items of a sequence of batches, in publication order. */
  function Flatten(batches: seq<seq<Item>>): seq<Item>
  {
    if batches == [] then [] else Flatten(batches[..|batches| - 1]) + batches[|batches| - 1]
  }

  /** Flattening distributes over concatenation of batch sequences. */
  lemma {:induction false} FlattenAppend(a: seq<seq<Item>>, b: seq<seq<Item>>)
    ensures Flatten(a + b) == Flatten(a) + Flatten(b)
    decreases |b|
  {
    if b == [] {
      assert a + b == a;
    } else {
      var b' := b[..|b| - 1];
      assert (a + b)[..|a + b| - 1] == a + b';
      FlattenAppend(a, b');
    }
  }

  lemma RadicalItemsAppend(a: seq<Radical>, b: seq<Radical>)
    ensures RadicalItems(a + b) == RadicalItems(a) + RadicalItems(b)
  {
  }
}
