/**
 * The embedding table of RNNRegression: the word index built from the
 * vocabulary, the word-to-index lookup of `_get_inputs`, and the table that
 * `word_embeddings` returns. Embedding vectors are plain rows of reals.
 */
module Vocabulary {
  import opened Wrappers
  import opened Seqs

  type Vec = seq<real>

  predicate Distinct(words: seq<string>)
  {
    forall i, j :: 0 <= i < j < |words| ==> words[i] != words[j]
  }

  /** `{w: i for i, w in enumerate(vocab)}`: a repeated word keeps its last index. */
  function VocabHash(vocab: seq<string>): map<string, nat>
  {
    if vocab == [] then map[]
    else VocabHash(vocab[..|vocab| - 1])[vocab[|vocab| - 1] := |vocab| - 1]
  }

  /**
   * The index covers exactly the vocabulary, and maps every word to the
   * position of its last occurrence.
   */
  lemma {:induction false} VocabHashSpec(vocab: seq<string>)
    ensures VocabHash(vocab).Keys == set w | w in vocab
    ensures forall w :: w in VocabHash(vocab) ==>
              VocabHash(vocab)[w] < |vocab| && vocab[VocabHash(vocab)[w]] == w
              && w !in vocab[VocabHash(vocab)[w] + 1..]
  {
    if vocab != [] {
      var front := vocab[..|vocab| - 1];
      var last := vocab[|vocab| - 1];
      VocabHashSpec(front);
      assert vocab == front + [last];
      var h := VocabHash(vocab);
      forall w | w in h
        ensures h[w] < |vocab| && vocab[h[w]] == w && w !in vocab[h[w] + 1..]
      {
        if w != last {
          var i := VocabHash(front)[w];
          assert vocab[i + 1..] == front[i + 1..] + [last];
        }
      }
    }
  }

  /** Without repeated words, `vocab_hash[vocab[i]] == i`. */
  lemma VocabHashDistinct(vocab: seq<string>)
    requires Distinct(vocab)
    ensures VocabHash(vocab).Keys == set w | w in vocab
    ensures forall i :: 0 <= i < |vocab| ==> vocab[i] in VocabHash(vocab) && VocabHash(vocab)[vocab[i]] == i
  {
    VocabHashSpec(vocab);
    forall i | 0 <= i < |vocab| ensures vocab[i] in VocabHash(vocab) && VocabHash(vocab)[vocab[i]] == i {
      assert vocab[i] in vocab;
    }
  }

  /** `[vocab_hash[word] for word in words]`: the indices in order, or KeyError. */
  function Lookup(hash: map<string, nat>, words: seq<string>): (r: Result<seq<nat>>)
    ensures r.Ok? <==> forall i :: 0 <= i < |words| ==> words[i] in hash
    ensures r.Err? ==> r.error == KeyError
    ensures r.Ok? ==> |r.value| == |words| && forall i :: 0 <= i < |words| ==> r.value[i] == hash[words[i]]
  {
    if words == [] then Ok([])
    else if words[0] !in hash then Err(KeyError)
    else
      match Lookup(hash, words[1..])
      case Err(e) => Err(e)
      case Ok(rest) => Ok([hash[words[0]]] + rest)
  }

  /** One element of the list handed to `_get_inputs`: a word, or a sentence of words. */
  datatype Item = Word(w: string) | Sentence(words: seq<string>)

  /** `isinstance(words[0], list)`; an empty list has no first element. */
  function HasBatchDim(items: seq<Item>): (r: Result<bool>)
    ensures r.Err? <==> items == []
    ensures r.Err? ==> r.error == IndexError
    ensures r.Ok? ==> (r.value <==> items[0].Sentence?)
  {
    if items == [] then Err(IndexError) else Ok(items[0].Sentence?)
  }

  /** Iterating over a string yields its one-character strings. */
  function Chars(w: string): (r: seq<string>)
    ensures |r| == |w| && forall k :: 0 <= k < |w| ==> r[k] == [w[k]]
  {
    seq(|w|, k requires 0 <= k < |w| => [w[k]])
  }

  /** What `for word in sent` walks over for one element of the list. */
  function SentenceWords(item: Item): seq<string>
  {
    match item
    case Sentence(ws) => ws
    case Word(w) => Chars(w)
  }

  /**
   * The position of the first element that is not an indexed word, or the
   * length when there is none.
   */
  function FirstUnfit(hash: map<string, nat>, items: seq<Item>): (k: nat)
    ensures k <= |items|
    ensures forall j :: 0 <= j < k ==> items[j].Word? && items[j].w in hash
    ensures k < |items| ==> !(items[k].Word? && items[k].w in hash)
  {
    if items == [] || !(items[0].Word? && items[0].w in hash) then 0
    else 1 + FirstUnfit(hash, items[1..])
  }

  /**
   * The unbatched comprehension: it raises at the first element that is a
   * list (unhashable, TypeError) or a word missing from the index (KeyError).
   */
  function LookupFlat(hash: map<string, nat>, items: seq<Item>): (r: Result<seq<nat>>)
    ensures r.Ok? <==> forall i :: 0 <= i < |items| ==> items[i].Word? && items[i].w in hash
    ensures r.Err? ==> var k := FirstUnfit(hash, items);
              k < |items| && r.error == (if items[k].Sentence? then TypeError else KeyError)
    ensures r.Ok? ==> |r.value| == |items| && forall i :: 0 <= i < |items| ==> r.value[i] == hash[items[i].w]
  {
    if items == [] then Ok([])
    else if items[0].Sentence? then Err(TypeError)
    else if items[0].w !in hash then Err(KeyError)
    else
      match LookupFlat(hash, items[1..])
      case Err(e) => Err(e)
      case Ok(rest) => Ok([hash[items[0].w]] + rest)
  }

  /** The batched loop of `_get_inputs`: one index list per sentence, in order. */
  function LookupSentences(hash: map<string, nat>, items: seq<Item>): Result<seq<seq<nat>>>
  {
    if items == [] then Ok([])
    else
      var n := |items| - 1;
      var front := LookupSentences(hash, items[..n]);
      var last := Lookup(hash, SentenceWords(items[n]));
      if front.Err? then front
      else if last.Err? then Err(last.error)
      else Ok(front.value + [last.value])
  }

  /** The batched lookup succeeds exactly when every sentence's lookup does. */
  lemma {:induction false} LookupSentencesOk(hash: map<string, nat>, items: seq<Item>)
    ensures LookupSentences(hash, items).Ok? <==> forall i :: 0 <= i < |items| ==> Lookup(hash, SentenceWords(items[i])).Ok?
    ensures LookupSentences(hash, items).Err? ==> LookupSentences(hash, items).error == KeyError
  {
    if items != [] {
      var n := |items| - 1;
      LookupSentencesOk(hash, items[..n]);
      assert forall i :: 0 <= i < n ==> items[..n][i] == items[i];
    }
  }

  /** A successful batched lookup holds each sentence's indices at that sentence's position. */
  lemma {:induction false} LookupSentencesValue(hash: map<string, nat>, items: seq<Item>)
    requires LookupSentences(hash, items).Ok?
    ensures |LookupSentences(hash, items).value| == |items|
    ensures forall i :: 0 <= i < |items| ==>
              (Lookup(hash, SentenceWords(items[i])).Ok?
               && LookupSentences(hash, items).value[i] == Lookup(hash, SentenceWords(items[i])).value)
  {
    if items != [] {
      var n := |items| - 1;
      LookupSentencesValue(hash, items[..n]);
      assert forall i :: 0 <= i < n ==> items[..n][i] == items[i];
    }
  }

  /**
   * The batched lookup succeeds exactly when every sentence's lookup does,
   * and then holds each sentence's indices at that sentence's position.
   */
  lemma LookupSentencesSpec(hash: map<string, nat>, items: seq<Item>)
    ensures LookupSentences(hash, items).Ok? <==> forall i :: 0 <= i < |items| ==> Lookup(hash, SentenceWords(items[i])).Ok?
    ensures LookupSentences(hash, items).Err? ==> LookupSentences(hash, items).error == KeyError
    ensures LookupSentences(hash, items).Ok? ==> |LookupSentences(hash, items).value| == |items|
    ensures LookupSentences(hash, items).Ok? ==> forall i :: 0 <= i < |items| ==>
              LookupSentences(hash, items).value[i] == Lookup(hash, SentenceWords(items[i])).value
  {
    LookupSentencesOk(hash, items);
    if LookupSentences(hash, items).Ok? {
      LookupSentencesValue(hash, items);
    }
  }

  /** `torch.tensor` accepts nested lists only when every row has the same length. */
  predicate Rectangular(rows: seq<seq<nat>>)
  {
    forall i :: 0 <= i < |rows| ==> |rows[i]| == |rows[0]|
  }

  /** Every index the word index hands out names a row of the table. */
  predicate IndexFits(hash: map<string, nat>, weights: seq<Vec>)
  {
    forall w :: w in hash ==> hash[w] < |weights|
  }

  /** `self.embeddings(indices)` on a list of indices. */
  function Embed(weights: seq<Vec>, idx: seq<nat>): (rows: seq<Vec>)
    requires forall i :: 0 <= i < |idx| ==> idx[i] < |weights|
    ensures |rows| == |idx| && forall i :: 0 <= i < |idx| ==> rows[i] == weights[idx[i]]
  {
    seq(|idx|, i requires 0 <= i < |idx| => weights[idx[i]])
  }

  /** `self.embeddings(indices)` on a list of index lists. */
  function EmbedBatch(weights: seq<Vec>, idx: seq<seq<nat>>): (rows: seq<seq<Vec>>)
    requires forall s, i :: 0 <= s < |idx| && 0 <= i < |idx[s]| ==> idx[s][i] < |weights|
    ensures |rows| == |idx|
    ensures forall s :: 0 <= s < |idx| ==> rows[s] == Embed(weights, idx[s])
  {
    seq(|idx|, s requires 0 <= s < |idx| => Embed(weights, idx[s]))
  }

  /** The indices of a successful batched lookup all name rows of the table. */
  lemma LookupSentencesFit(hash: map<string, nat>, weights: seq<Vec>, items: seq<Item>)
    requires IndexFits(hash, weights) && LookupSentences(hash, items).Ok?
    ensures var idx := LookupSentences(hash, items).value;
            forall s, i :: 0 <= s < |idx| && 0 <= i < |idx[s]| ==> idx[s][i] < |weights|
  {
    LookupSentencesSpec(hash, items);
  }

  /** The embedded inputs, with or without a batch dimension. */
  datatype Embedded = FlatRows(rows: seq<Vec>) | BatchRows(batch: seq<seq<Vec>>)

  /**
   * `_get_inputs` given the `has_batch_dim` flag the last forward pass left
   * behind (None when no forward pass has run yet).
   */
  function GetInputsSpec(hash: map<string, nat>, weights: seq<Vec>, hasBatchDim: Option<bool>, items: seq<Item>)
    : Result<Embedded>
    requires IndexFits(hash, weights)
  {
    match hasBatchDim
    case None => Err(AttributeError)
    case Some(false) =>
      (match LookupFlat(hash, items)
       case Err(e) => Err(e)
       case Ok(idx) => Ok(FlatRows(Embed(weights, idx))))
    case Some(true) =>
      (match LookupSentences(hash, items)
       case Err(e) => Err(e)
       case Ok(idx) =>
         LookupSentencesFit(hash, weights, items);
         if !Rectangular(idx) then Err(ValueError)
         else Ok(BatchRows(EmbedBatch(weights, idx))))
  }

  /**
   * Without a batch dimension, lookup keeps the order of the words, gives
   * every word the row of its index, and fails exactly when an element is
   * missing from the index or is itself a list.
   */
  lemma GetInputsFlatOrder(hash: map<string, nat>, weights: seq<Vec>, items: seq<Item>)
    requires IndexFits(hash, weights)
    ensures var r := GetInputsSpec(hash, weights, Some(false), items);
      && (r.Ok? <==> forall i :: 0 <= i < |items| ==> items[i].Word? && items[i].w in hash)
      && (r.Ok? ==> r.value.FlatRows? && |r.value.rows| == |items|)
      && (r.Ok? ==> forall i :: 0 <= i < |items| ==> r.value.rows[i] == weights[hash[items[i].w]])
  {
  }

  /** Every word of every sentence is in the index. */
  predicate AllIndexed(hash: map<string, nat>, items: seq<Item>)
  {
    forall s, k :: 0 <= s < |items| && 0 <= k < |SentenceWords(items[s])| ==> SentenceWords(items[s])[k] in hash
  }

  /** Every sentence has as many words as the first one. */
  predicate SameLengths(items: seq<Item>)
  {
    forall s :: 0 <= s < |items| ==> |SentenceWords(items[s])| == |SentenceWords(items[0])|
  }

  /**
   * With a batch dimension, lookup succeeds exactly when every word is
   * indexed and the sentences have equal lengths; a missing word is a
   * KeyError and, with every word indexed, a ragged batch is a ValueError.
   * A success keeps the order of the sentences and of the words within them,
   * one row per word.
   */
  lemma GetInputsBatchedOrder(hash: map<string, nat>, weights: seq<Vec>, items: seq<Item>)
    requires IndexFits(hash, weights)
    ensures var r := GetInputsSpec(hash, weights, Some(true), items);
      && (r.Ok? <==> AllIndexed(hash, items) && SameLengths(items))
      && (r.Err? ==> r.error == if AllIndexed(hash, items) then ValueError else KeyError)
      && (r.Ok? ==> r.value.BatchRows? && |r.value.batch| == |items|)
      && (r.Ok? ==> forall s :: 0 <= s < |items| ==> |r.value.batch[s]| == |SentenceWords(items[s])|)
      && (r.Ok? ==> forall s, k :: 0 <= s < |items| && 0 <= k < |SentenceWords(items[s])| ==>
                      SentenceWords(items[s])[k] in hash
                      && r.value.batch[s][k] == weights[hash[SentenceWords(items[s])[k]]])
  {
    LookupSentencesOk(hash, items);
    if AllIndexed(hash, items) {
      forall s | 0 <= s < |items| ensures Lookup(hash, SentenceWords(items[s])).Ok? {
        assert forall k :: 0 <= k < |SentenceWords(items[s])| ==> SentenceWords(items[s])[k] in hash;
      }
      LookupSentencesValue(hash, items);
      var idx := LookupSentences(hash, items).value;
      assert forall s :: 0 <= s < |items| ==> |idx[s]| == |SentenceWords(items[s])|;
      assert Rectangular(idx) <==> SameLengths(items);
    } else {
      var s, k :| 0 <= s < |items| && 0 <= k < |SentenceWords(items[s])| && SentenceWords(items[s])[k] !in hash;
      assert Lookup(hash, SentenceWords(items[s])).Err?;
    }
  }

  /** With a batch dimension, a word missing from the index is a KeyError. */
  lemma GetInputsBatchedMissingWord(hash: map<string, nat>, weights: seq<Vec>, items: seq<Item>, s: nat, k: nat)
    requires IndexFits(hash, weights)
    requires s < |items| && k < |SentenceWords(items[s])| && SentenceWords(items[s])[k] !in hash
    ensures GetInputsSpec(hash, weights, Some(true), items) == Err(KeyError)
  {
    assert Lookup(hash, SentenceWords(items[s])).Err?;
    LookupSentencesOk(hash, items);
  }

  /** The words as plain (unbatched) list elements. */
  function AsWords(ws: seq<string>): (items: seq<Item>)
    ensures |items| == |ws| && forall i :: 0 <= i < |ws| ==> items[i] == Word(ws[i])
  {
    seq(|ws|, i requires 0 <= i < |ws| => Word(ws[i]))
  }

  /** Without repeated words, looking the vocabulary up gives the positions 0, 1, 2, ... */
  lemma VocabularyLookup(vocab: seq<string>)
    requires Distinct(vocab)
    ensures LookupFlat(VocabHash(vocab), AsWords(vocab)).Ok?
    ensures forall i :: 0 <= i < |vocab| ==> LookupFlat(VocabHash(vocab), AsWords(vocab)).value[i] == i
  {
    VocabHashDistinct(vocab);
  }

  /** A labelled table of embeddings, as the returned DataFrame holds it. */
  datatype Frame = Frame(index: seq<string>, rows: seq<Vec>)

  /** `word_embeddings`: an empty word list stands for the whole vocabulary. */
  function WordEmbeddingsSpec(vocab: seq<string>, hash: map<string, nat>, weights: seq<Vec>,
                              hasBatchDim: Option<bool>, words: seq<string>): Result<Frame>
    requires IndexFits(hash, weights)
  {
    var ws := if words == [] then vocab else words;
    match GetInputsSpec(hash, weights, hasBatchDim, AsWords(ws))
    case Err(e) => Err(e)
    case Ok(FlatRows(rows)) => Ok(Frame(ws, rows))
    case Ok(BatchRows(batch)) =>
      // A DataFrame needs two-dimensional input; only an empty batch is.
      if batch == [] then Ok(Frame(ws, [])) else Err(ValueError)
  }

  /**
   * Without a batch dimension, the table for an empty word list is the whole
   * vocabulary in order; for a repetition-free vocabulary its rows are the
   * weight rows themselves, in order.
   */
  lemma WholeVocabularyTable(vocab: seq<string>, weights: seq<Vec>)
    requires Distinct(vocab) && |weights| == |vocab|
    requires IndexFits(VocabHash(vocab), weights)
    ensures WordEmbeddingsSpec(vocab, VocabHash(vocab), weights, Some(false), []) == Ok(Frame(vocab, weights))
  {
    var hash := VocabHash(vocab);
    VocabularyLookup(vocab);
    var idx := LookupFlat(hash, AsWords(vocab)).value;
    assert Embed(weights, idx) == weights;
  }

  /** A pretrained table: labelled rows, all of one width. */
  datatype Table = Table(index: seq<string>, values: seq<Vec>, width: nat)

  predicate WellShaped(t: Table)
  {
    |t.index| == |t.values| && forall i :: 0 <= i < |t.values| ==> |t.values[i]| == t.width
  }

  /** The embedding state `_initialize_embeddings` sets up. */
  datatype Embedding = Embedding(vocab: seq<string>, embeddingSize: nat, weights: seq<Vec>, hash: map<string, nat>)

  /**
   * `_initialize_embeddings` as written: without a pretrained table it reads
   * `embedding_size`, a name that is not in scope there, after `len(vocab)`.
   */
  function InitializeEmbeddingsAsWritten(embeddings: Option<Table>, vocab: Option<seq<string>>): Result<Embedding>
  {
    match embeddings
    case Some(t) => Ok(Embedding(t.index, t.width, t.values, VocabHash(t.index)))
    case None =>
      if vocab.None? then Err(TypeError)   // len(None)
      else Err(NameError)
  }

  /** As written, a model can never be built from an explicit vocabulary. */
  lemma ExplicitVocabularyAsWrittenFails(vocab: seq<string>)
    ensures InitializeEmbeddingsAsWritten(None, Some(vocab)) == Err(NameError)
  {
  }

  /**
   * `_initialize_embeddings` with the constructor's `embedding_size` in
   * scope; `init` stands for the random initial rows of `torch.nn.Embedding`.
   * Without a pretrained table, `len(None)` rejects a missing vocabulary and
   * `torch.nn.Embedding(n, None)` a missing size, both with TypeError.
   */
  function InitializeEmbeddings(embeddings: Option<Table>, embeddingSize: Option<nat>, vocab: Option<seq<string>>,
                                init: nat -> Vec): (r: Result<Embedding>)
    requires embeddings.Some? ==> WellShaped(embeddings.value)
    ensures r.Err? <==> embeddings.None? && (vocab.None? || embeddingSize.None?)
    ensures r.Err? ==> r.error == TypeError
    ensures r.Ok? ==> |r.value.weights| == |r.value.vocab| && r.value.hash == VocabHash(r.value.vocab)
    ensures r.Ok? && embeddings.Some? ==>
              r.value.vocab == embeddings.value.index && r.value.weights == embeddings.value.values
              && r.value.embeddingSize == embeddings.value.width
    ensures r.Ok? && embeddings.None? ==>
              r.value.vocab == vocab.value && r.value.embeddingSize == embeddingSize.value
  {
    match embeddings
    case Some(t) => Ok(Embedding(t.index, t.width, t.values, VocabHash(t.index)))
    case None =>
      if vocab.None? || embeddingSize.None? then Err(TypeError)
      else
        var v := vocab.value;
        Ok(Embedding(v, embeddingSize.value, seq(|v|, i requires 0 <= i < |v| => init(i)), VocabHash(v)))
  }

  /** Every index the word index hands out names a row of the weight table. */
  lemma InitializedIndexFits(e: Embedding)
    requires |e.weights| == |e.vocab| && e.hash == VocabHash(e.vocab)
    ensures IndexFits(e.hash, e.weights)
  {
    VocabHashSpec(e.vocab);
  }

  /**
   * With a pretrained table whose labels do not repeat, looking a word up
   * gives back exactly that word's row of the table.
   */
  lemma PretrainedRoundTrip(t: Table, anyWidth: Option<nat>, init: nat -> Vec, i: nat)
    requires WellShaped(t) && Distinct(t.index) && i < |t.index|
    ensures var e := InitializeEmbeddings(Some(t), anyWidth, None, init).value;
            && Lookup(e.hash, [t.index[i]]) == Ok([i])
            && Embed(e.weights, [i]) == [t.values[i]]
  {
    VocabHashDistinct(t.index);
    var e := InitializeEmbeddings(Some(t), anyWidth, None, init).value;
    assert e.hash == VocabHash(t.index);
    assert t.index[i] in e.hash && e.hash[t.index[i]] == i;
    var r := Lookup(e.hash, [t.index[i]]);
    assert r.Ok? && |r.value| == 1 && r.value[0] == i;
    assert r.value == [i];
  }
}
