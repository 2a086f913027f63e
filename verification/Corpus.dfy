/**
 The artwork table under Bluesky imports, folder standardization, audits, embedding, commits and
 rollbacks. At no time do two validated rows hold the same content. The operations are functions
 on the table's value; the class updates the table in place and is proved to do what they say.
 */
module Corpus {
  import opened Wrappers

  type Path = string
  type Hash = string
  type CandidateId = string

  /** Both kinds of primary key; the hash of a candidate id is injective, so it is the id. */
  datatype ArtworkId = FromBluesky(candidate: CandidateId) | FromFolder(uuid: string)

  /** `source` is the candidate id of a Bluesky row. */
  datatype Artwork = Artwork(
    rawPath: Path, source: Option<CandidateId>, fileHash: Option<Hash>,
    validated: bool, processedPath: Option<Path>)

  /** `embedded` gives the content an artwork's stored embedding was computed from. */
  datatype Tables = Tables(artworks: map<ArtworkId, Artwork>, embedded: map<ArtworkId, Hash>)

  /** What the connection sees, and what a rollback or a crash goes back to. */
  datatype Db = Db(current: Tables, committed: Tables)

  const EMPTY := Tables(map[], map[])

  datatype Outcome =
    | Unchanged(id: ArtworkId) | Duplicate(of: ArtworkId) | Stored(id: ArtworkId) | Error

  datatype LocalFile = LocalFile(path: Path, hash: Hash)

  // ----- what is promised -----

  predicate Holds(t: Tables, id: ArtworkId, hash: Hash) {
    id in t.artworks && t.artworks[id].validated && t.artworks[id].fileHash == Some(hash)
  }

  ghost predicate Unique(t: Tables) {
    forall a, b, hash | Holds(t, a, hash) && Holds(t, b, hash) :: a == b
  }

  /** A validated row names its content and its processed file. */
  ghost predicate Complete(t: Tables) {
    forall id | id in t.artworks && t.artworks[id].validated ::
      t.artworks[id].fileHash.Some? && t.artworks[id].processedPath.Some?
  }

  predicate From(t: Tables, id: ArtworkId, candidate: CandidateId) {
    id in t.artworks && t.artworks[id].source == Some(candidate)
  }

  /** The table's own constraint on platform and source id, which no operation here runs into. */
  ghost predicate SourcesUnique(t: Tables) {
    forall a, b, candidate | From(t, a, candidate) && From(t, b, candidate) :: a == b
  }

  /** Every embedding was computed from the row's present content. */
  ghost predicate Fresh(t: Tables) {
    forall id | id in t.embedded && id in t.artworks :: t.artworks[id].fileHash == Some(t.embedded[id])
  }

  // ----- lookups -----

  /** Any row with the key may be returned: a raw path need not be unique. */
  ghost predicate FindsBySource(t: Tables, candidate: CandidateId, found: Option<ArtworkId>) {
    match found
    case Some(id) => id in t.artworks && t.artworks[id].source == Some(candidate)
    case None => forall id | id in t.artworks :: t.artworks[id].source != Some(candidate)
  }

  ghost predicate FindsByPath(t: Tables, path: Path, found: Option<ArtworkId>) {
    match found
    case Some(id) => id in t.artworks && t.artworks[id].rawPath == path
    case None => forall id | id in t.artworks :: t.artworks[id].rawPath != path
  }

  ghost predicate FindsHolder(t: Tables, hash: Hash, except: Option<ArtworkId>, found: Option<ArtworkId>) {
    match found
    case Some(id) => Holds(t, id, hash) && except != Some(id)
    case None => forall id | Holds(t, id, hash) :: except == Some(id)
  }

  predicate UpToDate(t: Tables, id: ArtworkId, hash: Hash, files: set<Path>) {
    && Holds(t, id, hash)
    && t.artworks[id].processedPath.Some? && t.artworks[id].processedPath.value in files
  }

  // ----- the operations -----

  function Put(t: Tables, id: ArtworkId, row: Artwork): Tables {
    t.(artworks := t.artworks[id := row])
  }

  function Invalidate(t: Tables, id: ArtworkId): Tables
    requires id in t.artworks
  {
    Put(t, id, t.artworks[id].(validated := false))
  }

  /** The row is out of the corpus, and its embedding gone, before its image is replaced. */
  function BeginImport(t: Tables, existing: Option<ArtworkId>): Tables
    requires existing.Some? ==> existing.value in t.artworks
  {
    if existing.None? then t
    else Invalidate(t, existing.value).(embedded := t.embedded - {existing.value})
  }

  /** `standardized` is the path of the processed image, `None` when making it failed. */
  function Import(
    t: Tables, candidate: CandidateId, local: Option<LocalFile>, files: set<Path>,
    existing: Option<ArtworkId>, duplicate: Option<ArtworkId>, standardized: Option<Path>): (Tables, Outcome)
    requires existing.Some? ==> existing.value in t.artworks
  {
    if local.None? then (t, Error)
    else if existing.Some? && UpToDate(t, existing.value, local.value.hash, files) then
      (t, Unchanged(existing.value))
    else if duplicate.Some? then (t, Duplicate(duplicate.value))
    else
      var begun := BeginImport(t, existing);
      var id := if existing.Some? then existing.value else FromBluesky(candidate);
      if standardized.None? || (existing.None? && id in t.artworks) then (begun, Error)
      else (Put(begun, id, Artwork(local.value.path, Some(candidate), Some(local.value.hash), true, standardized)),
            Stored(id))
  }

  /** Replacing an image commits the invalidated row before the image is made. */
  predicate CommitsMidway(
    t: Tables, local: Option<LocalFile>, files: set<Path>,
    existing: Option<ArtworkId>, duplicate: Option<ArtworkId>)
  {
    && local.Some? && existing.Some? && duplicate.None?
    && !UpToDate(t, existing.value, local.value.hash, files)
  }

  datatype Failure = NoFailure | BeforeWriting | AfterWriting

  /** Standardize one file of an artist's folder; `hash` is `None` when its audit failed. */
  function Process(
    t: Tables, raw: Path, hash: Option<Hash>, files: set<Path>, existing: Option<ArtworkId>,
    duplicate: Option<ArtworkId>, uuid: string, processed: Path, failure: Failure): (Tables, Outcome)
    requires existing.Some? ==> existing.value in t.artworks
  {
    if hash.None? then (t, Error)
    else if existing.Some? && UpToDate(t, existing.value, hash.value, files) then (t, Unchanged(existing.value))
    else if duplicate.Some? then (t, Duplicate(duplicate.value))
    else
      var id := if existing.Some? then existing.value else FromFolder(uuid);
      if failure == BeforeWriting || (existing.None? && id in t.artworks) then (t, Error)
      else
        var row := if existing.Some? then t.artworks[id].(fileHash := hash, validated := false)
                   else Artwork(raw, None, hash, false, None);
        if failure == AfterWriting then (Put(t, id, row), Error)
        else (Put(t, id, row.(processedPath := Some(processed), validated := true)), Stored(id))
  }

  predicate RawMissing(row: Artwork, files: set<Path>) {
    row.rawPath !in files
  }

  predicate ProcessedMissing(row: Artwork, files: set<Path>) {
    row.validated && (row.processedPath.None? || row.processedPath.value !in files)
  }

  function AuditRow(row: Artwork, files: set<Path>): Artwork {
    if RawMissing(row, files) || ProcessedMissing(row, files) then row.(validated := false) else row
  }

  function Audit(t: Tables, files: set<Path>): Tables {
    t.(artworks := map id | id in t.artworks :: AuditRow(t.artworks[id], files))
  }

  function Embed(t: Tables, id: ArtworkId): Tables {
    if id in t.artworks && t.artworks[id].validated && t.artworks[id].fileHash.Some?
    then t.(embedded := t.embedded[id := t.artworks[id].fileHash.value]) else t
  }

  predicate BothFilesExist(row: Artwork, files: set<Path>) {
    row.rawPath in files && row.processedPath.Some? && row.processedPath.value in files
  }

  /** Only the flag changes, and it stays exactly when both files exist. */
  predicate AuditMeans(before: Artwork, after: Artwork, files: set<Path>) {
    && after == before.(validated := after.validated)
    && (after.validated <==> before.validated && BothFilesExist(before, files))
  }

  lemma AuditInvalidates(row: Artwork, files: set<Path>)
    ensures AuditMeans(row, AuditRow(row, files), files)
  {
  }

  function RawMissingIn(rows: map<ArtworkId, Artwork>, files: set<Path>): set<ArtworkId> {
    set id | id in rows && RawMissing(rows[id], files)
  }

  function ProcessedMissingIn(rows: map<ArtworkId, Artwork>, files: set<Path>): set<ArtworkId> {
    set id | id in rows && ProcessedMissing(rows[id], files)
  }

  datatype Step =
    | ImportStep(candidate: CandidateId, local: Option<LocalFile>, files: set<Path>,
                 existing: Option<ArtworkId>, duplicate: Option<ArtworkId>, standardized: Option<Path>)
    | ProcessStep(raw: Path, hash: Option<Hash>, files: set<Path>, existing: Option<ArtworkId>,
                  duplicate: Option<ArtworkId>, uuid: string, processed: Path, failure: Failure)
    | AuditStep(files: set<Path>)
    | EmbedStep(id: ArtworkId)
    | CommitStep
    | RollbackStep

  /** The lookups of a step answer from the table as the connection sees it. */
  ghost predicate Enabled(db: Db, step: Step) {
    match step
    case ImportStep(candidate, local, _, existing, duplicate, _) =>
      && FindsBySource(db.current, candidate, existing)
      && (local.Some? ==> FindsHolder(db.current, local.value.hash, existing, duplicate))
    case ProcessStep(raw, hash, _, existing, duplicate, _, _, _) =>
      && FindsByPath(db.current, raw, existing)
      && (hash.Some? ==> FindsHolder(db.current, hash.value, existing, duplicate))
    case _ => true
  }

  ghost function Apply(db: Db, step: Step): (Db, Option<Outcome>)
    requires Enabled(db, step)
  {
    match step
    case ImportStep(candidate, local, files, existing, duplicate, standardized) =>
      var (t, outcome) := Import(db.current, candidate, local, files, existing, duplicate, standardized);
      (Db(t, if CommitsMidway(db.current, local, files, existing, duplicate)
             then BeginImport(db.current, existing) else db.committed), Some(outcome))
    case ProcessStep(raw, hash, files, existing, duplicate, uuid, processed, failure) =>
      var (t, outcome) := Process(db.current, raw, hash, files, existing, duplicate, uuid, processed, failure);
      (Db(t, t), Some(outcome))
    case AuditStep(files) => (Db(Audit(db.current, files), Audit(db.current, files)), None)
    case EmbedStep(id) => (Db(Embed(db.current, id), Embed(db.current, id)), None)
    case CommitStep => (Db(db.current, db.current), None)
    case RollbackStep => (Db(db.committed, db.committed), None)
  }

  // ----- uniqueness over every run -----

  ghost predicate Sound(t: Tables) {
    Unique(t) && Complete(t)
  }

  /** A row that is not validated, or whose content no other validated row holds, may be stored. */
  lemma PutKeepsSound(t: Tables, id: ArtworkId, row: Artwork)
    requires Sound(t)
    requires row.validated ==> row.fileHash.Some? && row.processedPath.Some?
    requires row.validated ==> FindsHolder(t, row.fileHash.value, Some(id), None)
    ensures Sound(Put(t, id, row))
  {
    var after := Put(t, id, row);
    forall a, b, hash | Holds(after, a, hash) && Holds(after, b, hash) ensures a == b {
      assert a != id ==> Holds(t, a, hash);
      assert b != id ==> Holds(t, b, hash);
    }
  }

  lemma NoOtherHolder(t: Tables, hash: Hash, id: ArtworkId)
    requires FindsHolder(t, hash, None, None)
    ensures FindsHolder(t, hash, Some(id), None)
  {
  }

  lemma BeginKeepsSound(t: Tables, existing: Option<ArtworkId>)
    requires Sound(t) && (existing.Some? ==> existing.value in t.artworks)
    ensures Sound(BeginImport(t, existing))
    ensures forall id, hash :: Holds(BeginImport(t, existing), id, hash)
                               <==> Holds(t, id, hash) && existing != Some(id)
  {
    if existing.Some? {
      PutKeepsSound(t, existing.value, t.artworks[existing.value].(validated := false));
      var inner := Invalidate(t, existing.value);
      assert forall id, hash :: Holds(BeginImport(t, existing), id, hash) <==> Holds(inner, id, hash);
    }
  }

  lemma ImportKeepsSound(db: Db, step: Step)
    requires step.ImportStep? && Sound(db.current) && Sound(db.committed) && Enabled(db, step)
    ensures Sound(Apply(db, step).0.current) && Sound(Apply(db, step).0.committed)
  {
    var t := db.current;
    BeginKeepsSound(t, step.existing);
    if Apply(db, step).1.value.Stored? {
      var id, begun := Apply(db, step).1.value.id, BeginImport(t, step.existing);
      assert FindsHolder(begun, step.local.value.hash, Some(id), None);
      PutKeepsSound(begun, id,
                    Artwork(step.local.value.path, Some(step.candidate), Some(step.local.value.hash), true,
                            step.standardized));
    }
  }

  lemma ProcessKeepsSound(db: Db, step: Step)
    requires step.ProcessStep? && Sound(db.current) && Enabled(db, step)
    ensures Sound(Apply(db, step).0.current)
  {
    var t := db.current;
    var (after, outcome) := Process(t, step.raw, step.hash, step.files, step.existing, step.duplicate,
                                    step.uuid, step.processed, step.failure);
    if after != t {
      var id := if step.existing.Some? then step.existing.value else FromFolder(step.uuid);
      if step.existing.None? {
        NoOtherHolder(t, step.hash.value, id);
      }
      PutKeepsSound(t, id, after.artworks[id]);
    }
  }

  lemma AuditKeepsSound(t: Tables, files: set<Path>)
    requires Sound(t)
    ensures Sound(Audit(t, files))
    ensures forall id, hash | Holds(Audit(t, files), id, hash) :: Holds(t, id, hash)
  {
    assert forall id, hash | Holds(Audit(t, files), id, hash) :: Holds(t, id, hash);
  }

  lemma EmbedKeepsSound(t: Tables, id: ArtworkId)
    requires Sound(t)
    ensures Sound(Embed(t, id))
  {
    assert forall other, hash :: Holds(Embed(t, id), other, hash) <==> Holds(t, other, hash);
  }

  lemma StepKeepsSound(db: Db, step: Step)
    requires Sound(db.current) && Sound(db.committed) && Enabled(db, step)
    ensures Sound(Apply(db, step).0.current) && Sound(Apply(db, step).0.committed)
  {
    match step
    case ImportStep(_, _, _, _, _, _) => ImportKeepsSound(db, step);
    case ProcessStep(_, _, _, _, _, _, _, _) => ProcessKeepsSound(db, step);
    case AuditStep(files) => AuditKeepsSound(db.current, files);
    case EmbedStep(id) => EmbedKeepsSound(db.current, id);
    case _ =>
  }

  lemma StepKeepsSources(db: Db, step: Step)
    requires SourcesUnique(db.current) && SourcesUnique(db.committed) && Enabled(db, step)
    ensures SourcesUnique(Apply(db, step).0.current) && SourcesUnique(Apply(db, step).0.committed)
  {
    var after := Apply(db, step).0;
    forall a, b, c | From(after.current, a, c) && From(after.current, b, c) ensures a == b {
      if step.ImportStep? && c == step.candidate {
        assert step.existing.Some? ==> From(db.current, step.existing.value, c);
      }
      assert !step.RollbackStep? && From(db.current, a, c) && From(db.current, b, c) ==> a == b;
    }
    forall a, b, c | From(after.committed, a, c) && From(after.committed, b, c) ensures a == b {
      if step.ImportStep? && CommitsMidway(db.current, step.local, step.files, step.existing, step.duplicate) {
        assert From(db.current, a, c) && From(db.current, b, c);
      }
    }
  }

  ghost predicate Run(dbs: seq<Db>, steps: seq<Step>) {
    && |dbs| == |steps| + 1
    && forall i | 0 <= i < |steps| :: Enabled(dbs[i], steps[i]) && dbs[i + 1] == Apply(dbs[i], steps[i]).0
  }

  /** In every state of every run no two validated rows hold the same content, or come from one candidate. */
  lemma {:induction false} ValidatedContentIsUnique(dbs: seq<Db>, steps: seq<Step>, i: nat)
    requires Run(dbs, steps) && i < |dbs| && dbs[0] == Db(EMPTY, EMPTY)
    ensures Sound(dbs[i].current) && Sound(dbs[i].committed)
    ensures SourcesUnique(dbs[i].current) && SourcesUnique(dbs[i].committed)
  {
    if i > 0 {
      ValidatedContentIsUnique(dbs, steps, i - 1);
      StepKeepsSound(dbs[i - 1], steps[i - 1]);
      StepKeepsSources(dbs[i - 1], steps[i - 1]);
    }
  }

  lemma RunThen(dbs: seq<Db>, steps: seq<Step>, step: Step, next: Db)
    requires Run(dbs, steps) && Enabled(dbs[|steps|], step) && next == Apply(dbs[|steps|], step).0
    ensures Run(dbs + [next], steps + [step])
  {
  }

  // ----- what an outcome tells the caller -----

  ghost predicate ExactlyOneHolder(t: Tables, hash: Hash) {
    exists id :: Holds(t, id, hash) && forall other | Holds(t, other, hash) :: other == id
  }

  function ContentOf(step: Step): Option<Hash> {
    match step
    case ImportStep(_, Some(file), _, _, _, _) => Some(file.hash)
    case ProcessStep(_, hash, _, _, _, _, _, _) => hash
    case _ => None
  }

  /** Unless it is an error, the content is in the corpus exactly once afterwards, under the id named. */
  lemma OutcomeMeansStored(db: Db, step: Step)
    requires Sound(db.current) && Sound(db.committed) && Enabled(db, step)
    requires Apply(db, step).1.Some? && !Apply(db, step).1.value.Error?
    ensures ContentOf(step).Some?
    ensures ExactlyOneHolder(Apply(db, step).0.current, ContentOf(step).value)
    ensures var outcome := Apply(db, step).1.value;
            var id := if outcome.Duplicate? then outcome.of else outcome.id;
            Holds(Apply(db, step).0.current, id, ContentOf(step).value)
    ensures !Apply(db, step).1.value.Stored? ==> Apply(db, step).0.current == db.current
  {
    StepKeepsSound(db, step);
    var outcome := Apply(db, step).1.value;
    var id := if outcome.Duplicate? then outcome.of else outcome.id;
    assert Holds(Apply(db, step).0.current, id, ContentOf(step).value);
  }

  /** An error never adds content, and the row it was replacing is out of the corpus. */
  lemma ErrorAddsNothing(db: Db, step: Step)
    requires Enabled(db, step) && Apply(db, step).1 == Some(Error)
    ensures forall id, hash | Holds(Apply(db, step).0.current, id, hash) :: Holds(db.current, id, hash)
    ensures forall id | id in db.current.artworks && id in Apply(db, step).0.current.artworks
                        && Apply(db, step).0.current.artworks[id] != db.current.artworks[id] ::
              !Apply(db, step).0.current.artworks[id].validated
  {
  }

  /** Importing the stored file again changes nothing. */
  lemma ImportIsIdempotent(db: Db, step: Step, again: Step)
    requires Sound(db.current) && Sound(db.committed) && Enabled(db, step)
    requires step.ImportStep? && Apply(db, step).1.value.Stored?
    requires again.ImportStep? && again.candidate == step.candidate && again.local == step.local
    requires SourcesUnique(db.current) && SourcesUnique(db.committed)
    requires Enabled(Apply(db, step).0, again) && step.standardized.value in again.files
    ensures Apply(Apply(db, step).0, again) == (Apply(db, step).0, Some(Unchanged(Apply(db, step).1.value.id)))
  {
    var after, id := Apply(db, step).0.current, Apply(db, step).1.value.id;
    assert UpToDate(after, id, step.local.value.hash, again.files);
    StepKeepsSources(db, step);
    assert From(after, id, step.candidate) && From(after, again.existing.value, step.candidate);
  }

  /** What was not committed is gone after a rollback: a new row, or the new content of an old one. */
  lemma RollbackForgets(db: Db, step: Step)
    requires step.ImportStep? && Enabled(db, step)
    ensures var t := Apply(Apply(db, step).0, RollbackStep).0.current;
      && (step.existing == None ==> t == db.committed)
      && (Apply(db, step).1.value.Stored? && step.existing.Some? ==>
            t.artworks == db.current.artworks[step.existing.value :=
              db.current.artworks[step.existing.value].(validated := false)])
  {
  }

  /** Standardizing the stored file again changes nothing, if the lookup by path returns its row. */
  lemma ProcessIsIdempotent(db: Db, step: Step, again: Step)
    requires step.ProcessStep? && Enabled(db, step) && Apply(db, step).1.value.Stored?
    requires again.ProcessStep? && again.raw == step.raw && again.hash == step.hash
    requires again.existing == Some(Apply(db, step).1.value.id) && step.processed in again.files
    requires Enabled(Apply(db, step).0, again)
    ensures Apply(Apply(db, step).0, again) == (Apply(db, step).0, Some(Unchanged(Apply(db, step).1.value.id)))
    ensures var t, id := Apply(db, step).0.current, Apply(db, step).1.value.id;
      t.artworks[id].rawPath == step.raw && t.artworks[id].processedPath == Some(step.processed)
      && (step.existing == None ==> t.artworks[id].source == None)
  {
  }

  // ----- embeddings of replaced content -----

  /** The row of this file has an embedding, and new content takes its place. */
  ghost predicate ReplacesEmbedded(t: Tables, step: Step) {
    && step.ProcessStep? && step.hash.Some? && step.existing.Some? && step.duplicate.None?
    && step.failure != BeforeWriting
    && step.existing.value in t.embedded && t.embedded[step.existing.value] != step.hash.value
  }

  /**
   Imports drop the embedding of what they replace. Folder standardization does not, so its
   embedding goes stale exactly when it replaces the content of an embedded row.
   */
  lemma StaleIffReplaced(db: Db, step: Step)
    requires Sound(db.current) && Fresh(db.current) && Enabled(db, step)
    requires db.current.embedded.Keys <= db.current.artworks.Keys
    requires step.RollbackStep? ==> Fresh(db.committed)
    ensures Fresh(Apply(db, step).0.current) <==> !ReplacesEmbedded(db.current, step)
  {
    var after := Apply(db, step).0.current;
    if ReplacesEmbedded(db.current, step) {
      var id := step.existing.value;
      assert !UpToDate(db.current, id, step.hash.value, step.files);
      assert after.artworks[id].fileHash == step.hash && id in after.embedded;
    }
  }

  /** One file standardized, embedded, changed and standardized again: its embedding is of the old content. */
  lemma EmbeddingCanBeStale() returns (dbs: seq<Db>, steps: seq<Step>)
    ensures Run(dbs, steps) && dbs[0] == Db(EMPTY, EMPTY) && !Fresh(dbs[|steps|].current)
  {
    var id := FromFolder("u");
    var first := ProcessStep("r", Some("h1"), {}, None, None, "u", "p", NoFailure);
    var second := ProcessStep("r", Some("h2"), {}, Some(id), None, "v", "p", NoFailure);
    var a := Db(EMPTY, EMPTY);
    var b := Apply(a, first).0;
    assert b.current.artworks == map[id := Artwork("r", None, Some("h1"), true, Some("p"))];
    var c := Apply(b, EmbedStep(id)).0;
    assert c.current.embedded == map[id := "h1"];
    var d := Apply(c, second).0;
    assert d.current.artworks[id].fileHash == Some("h2") && d.current.embedded[id] == "h1";
    assert "h1" != "h2";
    steps := [first, EmbedStep(id), second];
    dbs := [a, b, c, d];
  }

  // ----- the database connection -----

  datatype Route =
    | NotRouted | RouteFailed | ToReview
    | ToCorpus(accepted: bool, local: Option<LocalFile>, standardized: Option<Path>)

  datatype BatchItem = BatchItem(candidate: CandidateId, sameConfig: bool, route: Route)

  datatype Summary = Summary(
    decisions: nat, imported: nat, kept: nat, duplicates: nat, reviewStored: nat, errors: nat)

  const NO_SUMMARY := Summary(0, 0, 0, 0, 0, 0)

  /** What one item adds to the summary, given the outcome of its import. */
  function Counted(s: Summary, route: Route, outcome: Outcome): Summary {
    var t := s.(decisions := s.decisions + 1);
    match route
    case NotRouted => t
    case RouteFailed => t.(errors := t.errors + 1)
    case ToReview => t.(reviewStored := t.reviewStored + 1)
    case ToCorpus(accepted, _, _) =>
      if !accepted then t else match outcome
      case Unchanged(_) => t.(kept := t.kept + 1)
      case Duplicate(_) => t.(duplicates := t.duplicates + 1)
      case Stored(_) => t.(imported := t.imported + 1)
      case Error => t.(errors := t.errors + 1)
  }

  /** How many imports ended in this way. */
  function Number(outcomes: seq<Outcome>, heading: Heading): nat {
    if outcomes == [] then 0
    else
      Number(outcomes[..|outcomes| - 1], heading)
      + if HeadingOf(outcomes[|outcomes| - 1]) == heading then 1 else 0
  }

  datatype Heading = Imported | Kept | Duplicates | Errors

  function HeadingOf(o: Outcome): Heading {
    match o
    case Stored(_) => Imported
    case Unchanged(_) => Kept
    case Duplicate(_) => Duplicates
    case Error => Errors
  }

  function Routed(items: seq<BatchItem>, route: Route): nat {
    if items == [] then 0
    else Routed(items[..|items| - 1], route) + if items[|items| - 1].route == route then 1 else 0
  }

  /** The imports of a batch are those of its accepted items, in order. */
  function Accepted(items: seq<BatchItem>): seq<CandidateId> {
    if items == [] then []
    else
      var last := items[|items| - 1];
      Accepted(items[..|items| - 1])
      + if last.route.ToCorpus? && last.route.accepted then [last.candidate] else []
  }

  /** Each heading counts exactly what it says. */
  ghost predicate Headed(s: Summary, items: seq<BatchItem>, outcomes: seq<Outcome>) {
    && s.decisions == |items|
    && s.imported == Number(outcomes, Imported) && s.kept == Number(outcomes, Kept)
    && s.duplicates == Number(outcomes, Duplicates) && s.reviewStored == Routed(items, ToReview)
    && s.errors == Number(outcomes, Errors) + Routed(items, RouteFailed)
  }

  lemma HeadedNext(s: Summary, items: seq<BatchItem>, i: nat, outcomes: seq<Outcome>, outcome: Outcome)
    requires i < |items| && Headed(s, items[..i], outcomes)
    ensures var route := items[i].route;
      Headed(Counted(s, route, outcome), items[..i + 1],
             if route.ToCorpus? && route.accepted then outcomes + [outcome] else outcomes)
  {
    RoutedNext(items, i, ToReview);
    RoutedNext(items, i, RouteFailed);
    NumberNext(outcomes, outcome);
    hide Number, Routed;
  }

  lemma RoutedNext(items: seq<BatchItem>, i: nat, route: Route)
    requires i < |items|
    ensures Routed(items[..i + 1], route) == Routed(items[..i], route) + if items[i].route == route then 1 else 0
  {
    assert items[..i + 1][..i] == items[..i];
  }

  lemma NumberNext(outcomes: seq<Outcome>, o: Outcome)
    ensures forall heading :: Number(outcomes + [o], heading)
                              == Number(outcomes, heading) + if HeadingOf(o) == heading then 1 else 0
  {
    assert (outcomes + [o])[..|outcomes|] == outcomes;
  }

  /** The steps before the last import, with these outcomes. */
  ghost predicate ImportsGive(dbs: seq<Db>, steps: seq<Step>, outcomes: seq<Outcome>)
    requires Run(dbs, steps) && |outcomes| <= |steps|
  {
    forall k | 0 <= k < |outcomes| :: steps[k].ImportStep? && Apply(dbs[k], steps[k]).1 == Some(outcomes[k])
  }

  /** One import for each accepted item, in order. */
  ghost predicate ImportsFor(steps: seq<Step>, outcomes: seq<Outcome>, items: seq<BatchItem>) {
    && |Accepted(items)| == |outcomes| <= |steps|
    && forall k | 0 <= k < |outcomes| :: steps[k].ImportStep? && steps[k].candidate == Accepted(items)[k]
  }

  /** After `items`: the imports so far are a run from `was` to `now`, and the summary counts them. */
  ghost predicate InBatch(
    was: Db, now: Db, items: seq<BatchItem>, s: Summary, dbs: seq<Db>, steps: seq<Step>, outcomes: seq<Outcome>)
  {
    && Run(dbs, steps) && dbs[0] == was && dbs[|steps|] == now && |outcomes| == |steps|
    && ImportsGive(dbs, steps, outcomes) && Headed(s, items, outcomes) && ImportsFor(steps, outcomes, items)
  }

  lemma BatchEnds(
    was: Db, now: Db, items: seq<BatchItem>, s: Summary, dbs: seq<Db>, steps: seq<Step>, outcomes: seq<Outcome>,
    end: Step)
    requires InBatch(was, now, items, s, dbs, steps, outcomes) && (end.CommitStep? || end.RollbackStep?)
    ensures var last := if end.CommitStep? then Db(now.current, now.current) else Db(now.committed, now.committed);
      && Run(dbs + [last], steps + [end]) && dbs != [] && dbs[0] == was
      && |outcomes| == |steps| && ImportsGive(dbs + [last], steps + [end], outcomes)
      && Headed(s, items, outcomes) && ImportsFor(steps + [end], outcomes, items)
  {
    RunThen(dbs, steps, end, Apply(now, end).0);
    hide Headed, Apply, Enabled, Accepted;
  }

  lemma BatchPasses(
    was: Db, now: Db, items: seq<BatchItem>, i: nat, s: Summary, dbs: seq<Db>, steps: seq<Step>,
    outcomes: seq<Outcome>)
    requires i < |items| && InBatch(was, now, items[..i], s, dbs, steps, outcomes)
    requires !(items[i].route.ToCorpus? && items[i].route.accepted)
    ensures InBatch(was, now, items[..i + 1], Counted(s, items[i].route, Error), dbs, steps, outcomes)
  {
    HeadedNext(s, items, i, outcomes, Error);
    hide Headed, Apply, Enabled, Run, ImportsGive, Counted;
    assert items[..i + 1][..i] == items[..i];
    assert Accepted(items[..i + 1]) == Accepted(items[..i]);
  }

  lemma BatchImports(
    was: Db, now: Db, items: seq<BatchItem>, i: nat, s: Summary, dbs: seq<Db>, steps: seq<Step>,
    outcomes: seq<Outcome>, step: Step, next: Db, outcome: Outcome)
    requires i < |items| && InBatch(was, now, items[..i], s, dbs, steps, outcomes)
    requires items[i].route.ToCorpus? && items[i].route.accepted
    requires step.ImportStep? && step.candidate == items[i].candidate
    requires Enabled(now, step) && (next, Some(outcome)) == Apply(now, step)
    ensures InBatch(was, next, items[..i + 1], Counted(s, items[i].route, outcome),
                    dbs + [next], steps + [step], outcomes + [outcome])
  {
    HeadedNext(s, items, i, outcomes, outcome);
    RunThen(dbs, steps, step, next);
    hide Headed, Apply, Enabled, Counted;
    assert items[..i + 1][..i] == items[..i];
    assert Accepted(items[..i + 1]) == Accepted(items[..i]) + [items[i].candidate];
  }

  class CorpusDb {
    var artworks: map<ArtworkId, Artwork>
    var embedded: map<ArtworkId, Hash>
    var committed: Tables

    constructor ()
      ensures View() == Db(EMPTY, EMPTY)
    {
      artworks, embedded, committed := map[], map[], EMPTY;
    }

    function Current(): Tables
      reads this
    {
      Tables(artworks, embedded)
    }

    function View(): Db
      reads this
    {
      Db(Current(), committed)
    }

    method Find(matches: set<ArtworkId>) returns (found: Option<ArtworkId>)
      ensures match found case Some(id) => id in matches case None => matches == {}
    {
      if matches == {} {
        return None;
      }
      var id :| id in matches;
      return Some(id);
    }

    method FindBySource(candidate: CandidateId) returns (found: Option<ArtworkId>)
      ensures FindsBySource(Current(), candidate, found)
    {
      var matches := set id | id in artworks && artworks[id].source == Some(candidate);
      found := Find(matches);
      assert forall id | id in artworks && artworks[id].source == Some(candidate) :: id in matches;
    }

    method FindByPath(path: Path) returns (found: Option<ArtworkId>)
      ensures FindsByPath(Current(), path, found)
    {
      var matches := set id | id in artworks && artworks[id].rawPath == path;
      found := Find(matches);
      assert forall id | id in artworks && artworks[id].rawPath == path :: id in matches;
    }

    method FindHolder(hash: Hash, except: Option<ArtworkId>) returns (found: Option<ArtworkId>)
      ensures FindsHolder(Current(), hash, except, found)
    {
      var t := Current();
      var matches := set id | id in artworks && Holds(t, id, hash) && except != Some(id);
      found := Find(matches);
      assert forall id | Holds(t, id, hash) && except != Some(id) :: id in matches;
    }

    method Commit()
      modifies this`committed
      ensures View() == Apply(old(View()), CommitStep).0
    {
      committed := Current();
    }

    method UpdateRow(id: ArtworkId, row: Artwork)
      modifies this`artworks
      ensures Current() == Put(old(Current()), id, row)
    {
      artworks := artworks[id := row];
    }

    /** Import one accepted image; `standardize` stands for the image library's answer. */
    method ImportAccepted(candidate: CandidateId, local: Option<LocalFile>, files: set<Path>, standardize: Option<Path>)
      returns (outcome: Outcome, ghost step: Step)
      modifies this
      ensures step.ImportStep? && step.candidate == candidate && step.local == local
      ensures step.files == files && step.standardized == standardize
      ensures Enabled(old(View()), step) && (View(), Some(outcome)) == Apply(old(View()), step)
    {
      var existing := FindBySource(candidate);
      step := ImportStep(candidate, local, files, existing, None, standardize);
      if local.None? {
        return Error, step;
      }
      var hash := local.value.hash;
      var duplicate := FindHolder(hash, existing);
      step := ImportStep(candidate, local, files, existing, duplicate, standardize);
      if existing.Some? {
        var row := artworks[existing.value];
        if row.validated && row.fileHash == Some(hash) && row.processedPath.Some? && row.processedPath.value in files {
          return Unchanged(existing.value), step;
        }
      }
      if duplicate.Some? {
        return Duplicate(duplicate.value), step;
      }
      var id := if existing.Some? then existing.value else FromBluesky(candidate);
      if existing.Some? {
        artworks := artworks[id := artworks[id].(validated := false)];
        embedded := embedded - {id};
        committed := Current();
      }
      if standardize.None? || (existing.None? && id in artworks) {
        return Error, step;
      }
      UpdateRow(id, Artwork(local.value.path, Some(candidate), Some(hash), true, standardize));
      outcome := Stored(id);
    }

    /**
     Persist a batch: a run that imports the accepted items in order, ended by a commit or, when a
     result was made under another configuration, by a rollback. Each heading of the summary counts
     exactly the items it names.
     */
    method PersistBatch(items: seq<BatchItem>, files: set<Path>)
      returns (summary: Option<Summary>, ghost dbs: seq<Db>, ghost steps: seq<Step>, ghost outcomes: seq<Outcome>)
      modifies this
      ensures Run(dbs, steps) && dbs[0] == old(View()) && dbs[|steps|] == View()
      ensures |outcomes| == |steps| - 1 && ImportsGive(dbs, steps, outcomes)
      ensures steps[|outcomes|] == if summary.Some? then CommitStep else RollbackStep
      ensures summary == None <==> exists i | 0 <= i < |items| :: !items[i].sameConfig
      ensures summary.Some? ==> Headed(summary.value, items, outcomes) && ImportsFor(steps, outcomes, items)
      ensures Current() == committed
    {
      dbs, steps, outcomes := [View()], [], [];
      var s := NO_SUMMARY;
      ghost var was := View();
      assert InBatch(was, View(), items[..0], s, dbs, steps, outcomes);
      hide InBatch, Run, ImportsGive, Headed, Accepted, Enabled, Apply;
      for i := 0 to |items|
        invariant InBatch(was, View(), items[..i], s, dbs, steps, outcomes)
        invariant forall k | 0 <= k < i :: items[k].sameConfig
      {
        if !items[i].sameConfig {
          BatchEnds(was, View(), items[..i], s, dbs, steps, outcomes, RollbackStep);
          artworks, embedded := committed.artworks, committed.embedded;
          return None, dbs + [View()], steps + [RollbackStep], outcomes;
        }
        var route := items[i].route;
        if route.ToCorpus? && route.accepted {
          ghost var before := View();
          var outcome;
          ghost var step;
          outcome, step := ImportAccepted(items[i].candidate, route.local, files, route.standardized);
          BatchImports(was, before, items, i, s, dbs, steps, outcomes, step, View(), outcome);
          dbs, steps, outcomes := dbs + [View()], steps + [step], outcomes + [outcome];
          s := Counted(s, route, outcome);
        } else {
          BatchPasses(was, View(), items, i, s, dbs, steps, outcomes);
          s := Counted(s, route, Error);
        }
      }
      assert items[..|items|] == items;
      BatchEnds(was, View(), items, s, dbs, steps, outcomes, CommitStep);
      committed := Current();
      return Some(s), dbs + [View()], steps + [CommitStep], outcomes;
    }

    /** Standardize one file of an artist's folder. */
    method ProcessOne(
      raw: Path, audit: Option<Hash>, files: set<Path>, uuid: string, processed: Path, failure: Failure)
      returns (outcome: Outcome, ghost step: Step)
      modifies this
      ensures step.ProcessStep? && step.raw == raw && step.hash == audit && step.files == files
      ensures step.uuid == uuid && step.processed == processed && step.failure == failure
      ensures Enabled(old(View()), step) && (View(), Some(outcome)) == Apply(old(View()), step)
    {
      var existing := FindByPath(raw);
      step := ProcessStep(raw, audit, files, existing, None, uuid, processed, failure);
      if audit.None? {
        committed := Current();
        return Error, step;
      }
      var duplicate := FindHolder(audit.value, existing);
      step := ProcessStep(raw, audit, files, existing, duplicate, uuid, processed, failure);
      if existing.Some? {
        var row := artworks[existing.value];
        if row.validated && row.fileHash == audit && row.processedPath.Some? && row.processedPath.value in files {
          committed := Current();
          return Unchanged(existing.value), step;
        }
      }
      if duplicate.Some? {
        committed := Current();
        return Duplicate(duplicate.value), step;
      }
      var id := if existing.Some? then existing.value else FromFolder(uuid);
      if failure == BeforeWriting || (existing.None? && id in artworks) {
        committed := Current();
        return Error, step;
      }
      if existing.None? {
        UpdateRow(id, Artwork(raw, None, audit, false, None));
      } else {
        UpdateRow(id, artworks[id].(fileHash := audit, validated := false));
      }
      committed := Current();
      if failure == AfterWriting {
        return Error, step;
      }
      UpdateRow(id, artworks[id].(processedPath := Some(processed), fileHash := audit, validated := true));
      assert artworks == old(artworks)[id := artworks[id]];
      committed := Current();
      outcome := Stored(id);
    }

    /** A row is reported for each of its two files that is missing. */
    method AuditArtwork(id: ArtworkId, files: set<Path>) returns (errors: nat)
      requires id in artworks
      modifies this`artworks
      ensures artworks == old(artworks)[id := AuditRow(old(artworks)[id], files)]
      ensures errors == (if RawMissing(old(artworks)[id], files) then 1 else 0)
                        + (if ProcessedMissing(old(artworks)[id], files) then 1 else 0)
    {
      var row := artworks[id];
      errors := 0;
      if row.rawPath !in files {
        artworks := artworks[id := artworks[id].(validated := false)];
        errors := errors + 1;
      }
      if row.validated && row.processedPath.None? {
        artworks := artworks[id := artworks[id].(validated := false)];
        errors := errors + 1;
      } else if row.validated && row.processedPath.value !in files {
        artworks := artworks[id := artworks[id].(validated := false)];
        errors := errors + 1;
      }
    }

    /** The audit of the whole table. */
    method AuditCorpusMetadata(files: set<Path>) returns (errors: nat)
      modifies this
      ensures View() == Apply(old(View()), AuditStep(files)).0
      ensures errors == |RawMissingIn(old(artworks), files)| + |ProcessedMissingIn(old(artworks), files)|
      ensures artworks.Keys == old(artworks).Keys && embedded == old(embedded)
      ensures forall id | id in artworks :: AuditMeans(old(artworks)[id], artworks[id], files)
    {
      errors := 0;
      ghost var raws: set<ArtworkId>, outs: set<ArtworkId> := {}, {};
      ghost var rows := artworks;
      var rest := artworks.Keys;
      while rest != {}
        invariant rest <= rows.Keys == artworks.Keys
        invariant embedded == old(embedded)
        invariant forall id | id in rows ::
          artworks[id] == if id in rest then rows[id] else AuditRow(rows[id], files)
        invariant forall id :: id in raws <==> id in rows && id !in rest && RawMissing(rows[id], files)
        invariant forall id :: id in outs <==> id in rows && id !in rest && ProcessedMissing(rows[id], files)
        invariant errors == |raws| + |outs|
        decreases rest
      {
        var id :| id in rest;
        var found := AuditArtwork(id, files);
        errors := errors + found;
        rest := rest - {id};
        raws := if RawMissing(rows[id], files) then raws + {id} else raws;
        outs := if ProcessedMissing(rows[id], files) then outs + {id} else outs;
      }
      assert raws == RawMissingIn(rows, files) && outs == ProcessedMissingIn(rows, files);
      forall id | id in rows ensures AuditMeans(rows[id], artworks[id], files) {
        AuditInvalidates(rows[id], files);
      }
      hide AuditRow, AuditMeans;
      assert artworks == Audit(old(Current()), files).artworks;
      committed := Current();
    }
  }
}
