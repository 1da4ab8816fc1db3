// Values shared by the ingestion model: rows, stage outputs and the configuration that stands
// for the code outside the pipeline (hashing, parsing, cleaning, chunking, embedding).
module Types {

  datatype Option<+T> = None | Some(value: T)

  type Content = string
  type Hash = string
  type Extension = string
  type UserId = nat
  type DocId = nat
  type JobId = nat
  type WorkerId = nat

  /** Microseconds on the database clock. */
  type Time = nat

  const SECOND: nat := 1_000_000
  const MINUTE: nat := 60 * SECOND
  const HOUR: nat := 60 * MINUTE

  datatype Stage = Extract | Clean | Chunk | Embed | Index

  datatype JobStatus = Queued | Running | Done | JobFailed
  datatype DocStatus = Pending | Processing | Indexed | DocFailed

  function StageIndex(stage: Stage): nat {
    match stage
    case Extract => 0
    case Clean => 1
    case Chunk => 2
    case Embed => 3
    case Index => 4
  }

  const STAGE_COUNT: nat := 5

  /** The successor in the canonical stage order; None after the last stage. */
  function NextStage(stage: Stage): (next: Option<Stage>)
    ensures next.None? <==> StageIndex(stage) == STAGE_COUNT - 1
    ensures next.Some? ==> StageIndex(next.value) == StageIndex(stage) + 1
  {
    match stage
    case Extract => Some(Clean)
    case Clean => Some(Chunk)
    case Chunk => Some(Embed)
    case Embed => Some(Index)
    case Index => None
  }

  /** A parsed document, as the extract and clean artifacts hold it. */
  datatype Parsed = Parsed(body: string, pages: nat)

  /** One prepared chunk; `embedding` is None until the embed stage has run. */
  datatype Row = Row(chunkIndex: nat, text: string, tokenCount: nat, embedding: Option<seq<real>>)

  datatype Artifact = ParsedDoc(doc: Parsed) | Rows(rows: seq<Row>)

  /** Artifact key under one fixed configuration: the fingerprint is a function of the stage. */
  datatype Key = Key(hash: Hash, stage: Stage)

  /** Source files are stored per user, digest and extension. */
  datatype SourceKey = SourceKey(user: UserId, hash: Hash, ext: Extension)

  /** Deterministic stand-ins for the code the pipeline calls. Extraction sees the file suffix. */
  datatype Config = Config(
    hash: Content -> Hash,
    extract: (Content, Extension) -> Parsed,
    clean: Parsed -> Parsed,
    chunk: Parsed -> seq<Row>,
    embed: seq<Row> -> seq<Row>,
    dimension: nat,
    maxTries: nat,
    keepResult: Time)

  /** What recomputing the artifact of a stage from the bytes would give. */
  function Expected(cfg: Config, content: Content, ext: Extension, stage: Stage): Artifact {
    match stage
    case Extract => ParsedDoc(cfg.extract(content, ext))
    case Clean => ParsedDoc(cfg.clean(cfg.extract(content, ext)))
    case Chunk => Rows(cfg.chunk(cfg.clean(cfg.extract(content, ext))))
    case Embed => Rows(PipelineRows(cfg, content, ext))
    case Index => Rows(PipelineRows(cfg, content, ext))
  }

  /** embed(chunk(clean(extract(content)))) */
  function PipelineRows(cfg: Config, content: Content, ext: Extension): seq<Row> {
    cfg.embed(cfg.chunk(cfg.clean(cfg.extract(content, ext))))
  }

  /** The index stage's checks on the rows it is about to insert. */
  predicate Indexable(cfg: Config, rows: seq<Row>) {
    && rows != []
    && forall i | 0 <= i < |rows| :: rows[i].embedding.Some? && |rows[i].embedding.value| == cfg.dimension
  }
}
