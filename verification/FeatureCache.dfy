/**
 Image embeddings with a cache in front of a model that may run out of memory: chunked
 encoding with bisection, the cache pass, and the classification of a batch by index.
 An image stands for its content hash, which is also its cache key for a fixed model.
 */
module FeatureCache {
  import opened Wrappers
  import opened Decision

  type Image = string
  type Vector = seq<real>

  function Rows(encode: Image -> Vector, images: seq<Image>): (rows: seq<Vector>)
    ensures |rows| == |images|
    ensures forall i | 0 <= i < |images| :: rows[i] == encode(images[i])
  {
    seq(|images|, i requires 0 <= i < |images| => encode(images[i]))
  }

  lemma RowsConcat(encode: Image -> Vector, a: seq<Image>, b: seq<Image>)
    ensures Rows(encode, a + b) == Rows(encode, a) + Rows(encode, b)
  {
  }

  lemma SliceOfSlice(images: seq<Image>, start: nat, end: nat, i: nat, j: nat)
    requires i <= j <= end - start && start <= end <= |images|
    ensures images[start..end][i..j] == images[start + i..start + j]
  {
    var a, b := images[start..end][i..j], images[start + i..start + j];
    assert forall k | 0 <= k < |a| :: a[k] == b[k];
  }

  datatype Encoded = Encoded(rows: seq<Vector>) | Exhausted | InferenceFailed

  // ----- the model backend -----

  class SiglipBackend {
    const encode: Image -> Vector
    const dimension: nat
    const batchSize: nat
    /** Which batches may exhaust memory, and which may fail otherwise. */
    const mayExhaust: seq<Image> -> bool
    const mayFail: seq<Image> -> bool

    constructor (encode: Image -> Vector, dimension: nat, batchSize: nat,
                 mayExhaust: seq<Image> -> bool, mayFail: seq<Image> -> bool)
      ensures this.encode == encode && this.dimension == dimension && this.batchSize == batchSize
      ensures this.mayExhaust == mayExhaust && this.mayFail == mayFail
    {
      this.encode, this.dimension, this.batchSize := encode, dimension, batchSize;
      this.mayExhaust, this.mayFail := mayExhaust, mayFail;
    }

    /** One model call; whether a batch that may fail does so can change from call to call. */
    method EncodeImageBatch(images: seq<Image>) returns (r: Encoded)
      ensures r.Encoded? ==> r.rows == Rows(encode, images)
      ensures r.Exhausted? ==> mayExhaust(images)
      ensures r.InferenceFailed? ==> mayFail(images)
    {
      var exhausted: bool, failed: bool := *, *;
      if exhausted && mayExhaust(images) {
        return Exhausted;
      }
      if failed && mayFail(images) {
        return InferenceFailed;
      }
      return Encoded(Rows(encode, images));
    }

    /** Halve the batch until it fits. */
    method EncodeWithOomRetry(images: seq<Image>) returns (r: Encoded)
      requires images != []
      ensures r.Encoded? ==> r.rows == Rows(encode, images)
      ensures r.Exhausted? ==> exists i | 0 <= i < |images| :: mayExhaust([images[i]])
      ensures r.InferenceFailed? ==> exists i, j | 0 <= i < j <= |images| :: mayFail(images[i..j])
      decreases |images|
    {
      r := EncodeImageBatch(images);
      if r.InferenceFailed? {
        assert images == images[0..|images|];
      }
      if !r.Exhausted? {
        return;
      }
      if |images| == 1 {
        assert images == [images[0]];
        return;
      }
      var midpoint := |images| / 2;
      assert images == images[..midpoint] + images[midpoint..];
      var left := EncodeWithOomRetry(images[..midpoint]);
      if !left.Encoded? {
        if left.InferenceFailed? {
          var i, j :| 0 <= i < j <= midpoint && mayFail(images[..midpoint][i..j]);
          assert images[..midpoint][i..j] == images[i..j];
        }
        return left;
      }
      var right := EncodeWithOomRetry(images[midpoint..]);
      if !right.Encoded? {
        if right.InferenceFailed? {
          var i, j :| 0 <= i < j <= |images| - midpoint && mayFail(images[midpoint..][i..j]);
          assert images[midpoint..][i..j] == images[midpoint + i..midpoint + j];
        }
        return right;
      }
      RowsConcat(encode, images[..midpoint], images[midpoint..]);
      return Encoded(left.rows + right.rows);
    }

    /**
     Whenever it returns rows they are the per-image encodings in order; it can only run out
     of memory if a single image may, and can only fail if some consecutive images may.
     */
    method EncodeImages(images: seq<Image>) returns (r: Encoded)
      requires batchSize > 0
      ensures r.Encoded? ==> r.rows == Rows(encode, images)
      ensures r.Exhausted? ==> exists i | 0 <= i < |images| :: mayExhaust([images[i]])
      ensures r.InferenceFailed? ==> exists i, j | 0 <= i < j <= |images| :: mayFail(images[i..j])
    {
      var rows: seq<Vector> := [];
      var start := 0;
      while start < |images|
        invariant 0 <= start <= |images|
        invariant rows == Rows(encode, images[..start])
      {
        var end := if start + batchSize <= |images| then start + batchSize else |images|;
        var batch := images[start..end];
        var part := EncodeWithOomRetry(batch);
        if !part.Encoded? {
          if part.Exhausted? {
            var i :| 0 <= i < |batch| && mayExhaust([batch[i]]);
            assert batch[i] == images[start + i];
          } else {
            var i, j :| 0 <= i < j <= |batch| && mayFail(batch[i..j]);
            SliceOfSlice(images, start, end, i, j);
          }
          return part;
        }
        assert images[..end] == images[..start] + batch;
        RowsConcat(encode, images[..start], batch);
        rows := rows + part.rows;
        start := end;
      }
      assert images[..start] == images;
      return Encoded(rows);
    }
  }

  // ----- the cache -----

  /** Entries of the expected shape are true encodings; others are ignored. */
  ghost predicate TrueCache(entries: map<Image, Vector>, encode: Image -> Vector, dimension: nat) {
    forall image | image in entries && |entries[image]| == dimension :: entries[image] == encode(image)
  }

  predicate IsHit(entries: map<Image, Vector>, dimension: nat, image: Image) {
    image in entries && |entries[image]| == dimension
  }

  class FeatureStore {
    var entries: map<Image, Vector>

    constructor ()
      ensures entries == map[]
    {
      entries := map[];
    }

    /** A write may fail; the failure is only logged. */
    method Put(image: Image, vector: Vector)
      modifies this
      ensures entries == old(entries) || entries == old(entries)[image := vector]
    {
      var written: bool := *;
      if written {
        entries := entries[image := vector];
      }
    }
  }

  class ArtworkFilterService {
    const cfg: Config
    const backend: SiglipBackend
    const hasClassifier: bool
    const cacheEnabled: bool
    const store: FeatureStore
    /** The zero-shot scores of an embedding, and the batches on which scoring may fail. */
    const score: Vector -> VisualScores
    const scoringMayFail: seq<Vector> -> bool

    constructor (cfg: Config, backend: SiglipBackend, hasClassifier: bool, cacheEnabled: bool,
                 store: FeatureStore, score: Vector -> VisualScores, scoringMayFail: seq<Vector> -> bool)
      ensures this.cfg == cfg && this.backend == backend && this.hasClassifier == hasClassifier
      ensures this.cacheEnabled == cacheEnabled && this.store == store && this.score == score
      ensures this.scoringMayFail == scoringMayFail
    {
      this.cfg, this.backend, this.hasClassifier := cfg, backend, hasClassifier;
      this.cacheEnabled, this.store, this.score := cacheEnabled, store, score;
      this.scoringMayFail := scoringMayFail;
    }

    ghost predicate Valid()
      reads store
    {
      backend.batchSize > 0 && TrueCache(store.entries, backend.encode, backend.dimension)
    }

    /**
     The model may fail on these images: one of them may exhaust memory, some consecutive ones may
     fail, or one has an encoding of the wrong length. It cannot fail on none.
     */
    ghost predicate MayFailOn(asked: seq<Image>) {
      || (exists i | 0 <= i < |asked| :: backend.mayExhaust([asked[i]]))
      || (exists i, j | 0 <= i < j <= |asked| :: backend.mayFail(asked[i..j]))
      || (exists i | 0 <= i < |asked| :: |backend.encode(asked[i])| != backend.dimension)
    }

    /**
     Row `i` of the result is the encoding of image `i`, whichever images were cached, and
     the model is asked for exactly the images that were not. The cache stays true.
     */
    method EmbeddingsFor(prepared: seq<Image>) returns (rows: Option<seq<Vector>>, ghost asked: seq<Image>)
      requires Valid()
      modifies store
      ensures Valid()
      ensures rows.Some? ==> rows.value == Rows(backend.encode, prepared)
      ensures rows.Some? ==> forall i | 0 <= i < |prepared| :: |rows.value[i]| == backend.dimension
      ensures forall image :: image in asked <==>
        image in prepared && !(cacheEnabled && IsHit(old(store.entries), backend.dimension, image))
      ensures rows == None ==> MayFailOn(asked)
      ensures !cacheEnabled ==> store.entries == old(store.entries)
    {
      var vectors: seq<Option<Vector>> := [];
      var missing: seq<nat> := [];
      for index := 0 to |prepared|
        invariant |vectors| == index
        invariant forall i | 0 <= i < |missing| :: missing[i] < index
        invariant forall i, j | 0 <= i < j < |missing| :: missing[i] < missing[j]
        invariant forall i | 0 <= i < index :: i in missing <==> vectors[i] == None
        invariant forall i | 0 <= i < index ::
          (vectors[i] == None <==> !(cacheEnabled && IsHit(store.entries, backend.dimension, prepared[i])))
        invariant forall i | 0 <= i < index && vectors[i].Some? ::
          vectors[i].value == backend.encode(prepared[i]) && |vectors[i].value| == backend.dimension
      {
        var image := prepared[index];
        if cacheEnabled && IsHit(store.entries, backend.dimension, image) {
          vectors := vectors + [Some(store.entries[image])];
        } else {
          vectors := vectors + [None];
          missing := missing + [index];
        }
      }
      var images := seq(|missing|, i requires 0 <= i < |missing| && missing[i] < |prepared| => prepared[missing[i]]);
      asked := images;
      AskedForMisses(prepared, vectors, missing, images);
      if missing != [] {
        var computed := backend.EncodeImages(images);
        if !computed.Encoded? || exists i | 0 <= i < |computed.rows| :: |computed.rows[i]| != backend.dimension {
          assert computed.Encoded? ==> forall i | 0 <= i < |images| :: computed.rows[i] == backend.encode(images[i]);
          return None, asked;
        }
        vectors := FillMissing(prepared, images, vectors, missing, computed.rows);
      }
      assert forall i | 0 <= i < |prepared| :: vectors[i].Some?;
      var full := seq(|prepared|, i requires 0 <= i < |prepared| && vectors[i].Some? => vectors[i].value);
      assert full == Rows(backend.encode, prepared);
      return Some(full), asked;
    }

    /** Each computed row goes to its own index and into the cache. */
    method FillMissing(
      prepared: seq<Image>, ghost images: seq<Image>, before: seq<Option<Vector>>, missing: seq<nat>,
      computed: seq<Vector>)
      returns (vectors: seq<Option<Vector>>)
      requires Valid() && |before| == |prepared| && |computed| == |missing| == |images|
      requires forall i | 0 <= i < |missing| :: missing[i] < |prepared| && images[i] == prepared[missing[i]]
      requires forall i, j | 0 <= i < j < |missing| :: missing[i] < missing[j]
      requires forall i | 0 <= i < |computed| ::
        computed[i] == backend.encode(images[i]) && |computed[i]| == backend.dimension
      requires forall i | 0 <= i < |before| && i !in missing ::
        before[i].Some? && before[i].value == backend.encode(prepared[i]) && |before[i].value| == backend.dimension
      modifies store
      ensures Valid()
      ensures |vectors| == |prepared|
      ensures forall i | 0 <= i < |prepared| ::
        vectors[i].Some? && vectors[i].value == backend.encode(prepared[i]) && |vectors[i].value| == backend.dimension
      ensures !cacheEnabled ==> store.entries == old(store.entries)
    {
      vectors := before;
      for row := 0 to |missing|
        invariant |vectors| == |prepared| && Valid()
        invariant forall i | 0 <= i < |prepared| && (i !in missing || i in missing[..row]) ::
          vectors[i].Some? && vectors[i].value == backend.encode(prepared[i]) && |vectors[i].value| == backend.dimension
        invariant !cacheEnabled ==> store.entries == old(store.entries)
      {
        var index := missing[row];
        assert missing[..row + 1] == missing[..row] + [index];
        vectors := vectors[index := Some(computed[row])];
        if cacheEnabled {
          store.Put(prepared[index], computed[row]);
        }
      }
      assert missing[..|missing|] == missing;
    }

    lemma AskedForMisses(
      prepared: seq<Image>, vectors: seq<Option<Vector>>, missing: seq<nat>, images: seq<Image>)
      requires |vectors| == |prepared| && |images| == |missing|
      requires forall i | 0 <= i < |missing| :: missing[i] < |prepared| && images[i] == prepared[missing[i]]
      requires forall i | 0 <= i < |prepared| :: i in missing <==> vectors[i] == None
      requires forall i | 0 <= i < |prepared| ::
        (vectors[i] == None <==> !(cacheEnabled && IsHit(store.entries, backend.dimension, prepared[i])))
      ensures forall image :: image in images <==>
        image in prepared && !(cacheEnabled && IsHit(store.entries, backend.dimension, image))
    {
      forall image | image in images
        ensures image in prepared && !(cacheEnabled && IsHit(store.entries, backend.dimension, image))
      {
        var i :| 0 <= i < |images| && images[i] == image;
        assert missing[i] in missing;
      }
      forall image | image in prepared && !(cacheEnabled && IsHit(store.entries, backend.dimension, image))
        ensures image in images
      {
        var i :| 0 <= i < |prepared| && prepared[i] == image;
        var k :| 0 <= k < |missing| && missing[k] == i;
        assert images[k] == image;
      }
    }

    // ----- classification by index -----

    /** What candidate `c` gets when the model pass did or did not succeed. */
    function Expected(c: Loaded, modelOk: bool): FilterResult {
      match c
      case LoadFailed => ErrorResult()
      case Image(image, meta, provenance, net) =>
        var rule := EvaluateRules(provenance, meta, cfg.media);
        if rule.disposition.ForceReject? || !hasClassifier then Decide(rule, None, net, cfg)
        else if modelOk then Decide(rule, Some(score(backend.encode(image))), net, cfg)
        else ErrorResult()
    }

    predicate GoesToModel(c: Loaded) {
      c.Image? && hasClassifier && !EvaluateRules(c.provenance, c.meta, cfg.media).disposition.ForceReject?
    }

    /** The images that need the model, in order. */
    function ModelImages(loaded: seq<Loaded>): seq<Image> {
      if loaded == [] then []
      else
        var last := loaded[|loaded| - 1];
        ModelImages(loaded[..|loaded| - 1]) + if GoesToModel(last) then [last.image] else []
    }

    /** What the first pass leaves open: the candidates that go to the model, in order. */
    ghost predicate Sorted(
      loaded: seq<Loaded>, slots: seq<Option<FilterResult>>, prepared: seq<nat>, images: seq<Image>)
    {
      && |slots| <= |loaded| && |images| == |prepared|
      && (forall k | 0 <= k < |prepared| ::
            prepared[k] < |slots| && GoesToModel(loaded[prepared[k]]) && images[k] == loaded[prepared[k]].image)
      && (forall j, k | 0 <= j < k < |prepared| :: prepared[j] < prepared[k])
      && (forall i | 0 <= i < |slots| && GoesToModel(loaded[i]) :: i in prepared)
      && (forall i | 0 <= i < |slots| && !GoesToModel(loaded[i]) :: Settled(slots[i], loaded[i]))
    }

    /** Filled with the one result that does not depend on the model. */
    ghost predicate Settled(slot: Option<FilterResult>, c: Loaded) {
      slot == Some(Expected(c, true)) && slot == Some(Expected(c, false))
    }

    method RulePass(loaded: seq<Loaded>)
      returns (slots: seq<Option<FilterResult>>, prepared: seq<nat>, images: seq<Image>)
      ensures |slots| == |loaded| && Sorted(loaded, slots, prepared, images)
      ensures images == ModelImages(loaded)
    {
      hide Settled, Expected, EvaluateRules, Decide;
      slots, prepared, images := [], [], [];
      for index := 0 to |loaded|
        invariant |slots| == index && Sorted(loaded, slots, prepared, images)
        invariant images == ModelImages(loaded[..index])
      {
        assert loaded[..index + 1][..index] == loaded[..index];
        var slot := RuleSlot(loaded[index]);
        if slot == None {
          prepared := prepared + [index];
          images := images + [loaded[index].image];
        }
        slots := slots + [slot];
      }
      assert loaded[..|loaded|] == loaded;
    }

    method RuleSlot(c: Loaded) returns (slot: Option<FilterResult>)
      ensures slot == None <==> GoesToModel(c)
      ensures slot.Some? ==> Settled(slot, c)
    {
      match c
      case LoadFailed => return Some(ErrorResult());
      case Image(_, meta, provenance, net) =>
        var rule := EvaluateRules(provenance, meta, cfg.media);
        if rule.disposition.ForceReject? || !hasClassifier {
          return Some(Decide(rule, None, net, cfg));
        }
        return None;
    }

    method ModelSlot(c: Loaded, visual: Option<VisualScores>) returns (result: FilterResult)
      requires GoesToModel(c) && (visual.Some? ==> visual.value == score(backend.encode(c.image)))
      ensures result == Expected(c, visual.Some?)
    {
      if visual == None {
        return ErrorResult();
      }
      return Decide(EvaluateRules(c.provenance, c.meta, cfg.media), visual, c.net, cfg);
    }

    /** Scoring is one call for the whole batch; whether one that may fail does can change from call to call. */
    method ClassifyEmbeddings(rows: seq<Vector>) returns (scores: Option<seq<VisualScores>>)
      ensures scores.Some? ==> |scores.value| == |rows|
      ensures scores.Some? ==> forall i | 0 <= i < |rows| :: scores.value[i] == score(rows[i])
      ensures scores == None ==> scoringMayFail(rows)
    {
      var failed: bool := *;
      if failed && scoringMayFail(rows) {
        return None;
      }
      return Some(seq(|rows|, i requires 0 <= i < |rows| => score(rows[i])));
    }

    /** The scores of the images that need the model; none at all when any call fails. */
    method ScoreImages(images: seq<Image>) returns (scores: Option<seq<VisualScores>>, ghost asked: seq<Image>)
      requires Valid()
      modifies store
      ensures Valid()
      ensures scores.Some? ==> Scored(scores.value, images)
      ensures scores == None ==> MayFailOn(asked) || scoringMayFail(Rows(backend.encode, images))
      ensures forall image :: image in asked <==>
        image in images && !(cacheEnabled && IsHit(old(store.entries), backend.dimension, image))
    {
      var rows;
      rows, asked := EmbeddingsFor(images);
      if rows == None {
        return None, asked;
      }
      scores := ClassifyEmbeddings(rows.value);
    }

    /**
     One result per candidate at its own index; only model candidates depend on the model, and they
     are errors only when a call could fail: on the images asked for, or on scoring the batch.
     */
    method ClassifyLoaded(loaded: seq<Loaded>)
      returns (results: seq<FilterResult>, ghost modelOk: bool, ghost asked: seq<Image>)
      requires Valid()
      modifies store
      ensures Valid()
      ensures |results| == |loaded|
      ensures forall i | 0 <= i < |loaded| :: results[i] == Expected(loaded[i], modelOk)
      ensures !modelOk ==> ModelImages(loaded) != []
      ensures !modelOk ==> MayFailOn(asked) || scoringMayFail(Rows(backend.encode, ModelImages(loaded)))
      ensures forall image :: image in asked <==>
        image in ModelImages(loaded) && !(cacheEnabled && IsHit(old(store.entries), backend.dimension, image))
    {
      var slots, prepared, images := RulePass(loaded);
      assert |images| == |prepared|;
      hide Sorted, Expected, MayFailOn, ModelImages, IsHit;
      var scores: Option<seq<VisualScores>> := Some([]);
      asked := [];
      if prepared != [] {
        scores, asked := ScoreImages(images);
      }
      modelOk := scores.Some?;
      results := FillModelSlots(loaded, slots, prepared, images, scores);
    }

    predicate Scored(scores: seq<VisualScores>, images: seq<Image>) {
      |scores| == |images| && forall i | 0 <= i < |images| :: scores[i] == score(backend.encode(images[i]))
    }

    /** Each score goes to the candidate it was made for. */
    method FillModelSlots(
      loaded: seq<Loaded>, before: seq<Option<FilterResult>>, prepared: seq<nat>, images: seq<Image>,
      scores: Option<seq<VisualScores>>)
      returns (results: seq<FilterResult>)
      requires |before| == |loaded| && Sorted(loaded, before, prepared, images)
      requires scores.Some? ==> Scored(scores.value, images)
      ensures |results| == |loaded|
      ensures forall i | 0 <= i < |loaded| :: results[i] == Expected(loaded[i], scores.Some?)
    {
      hide EvaluateRules, Decide;
      var slots := before;
      for k := 0 to |prepared|
        invariant |slots| == |loaded|
        invariant forall i | 0 <= i < |loaded| && !GoesToModel(loaded[i]) :: Settled(slots[i], loaded[i])
        invariant forall j | 0 <= j < k :: slots[prepared[j]] == Some(Expected(loaded[prepared[j]], scores.Some?))
      {
        var result := ModelSlot(loaded[prepared[k]], if scores == None then None else Some(scores.value[k]));
        slots := slots[prepared[k] := Some(result)];
      }
      forall i | 0 <= i < |loaded| ensures slots[i] == Some(Expected(loaded[i], scores.Some?)) {
        if GoesToModel(loaded[i]) {
          var j :| 0 <= j < |prepared| && prepared[j] == i;
        }
      }
      results := seq(|loaded|, i requires 0 <= i < |loaded| && slots[i].Some? => slots[i].value);
    }
  }

  type Pixels = m: LoadedImage | m.width > 0 && m.height > 0 witness LoadedImage(1, 1, false, 0.0)

  /** A candidate after loading. */
  datatype Loaded = LoadFailed | Image(image: Image, meta: Pixels, provenance: Provenance, net: Signed)
}
