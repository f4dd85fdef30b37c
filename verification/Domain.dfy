/**
 Object kinds and planned actions, as the repository's domain layer names them.
 A 32-byte digest is read as a number, so the all-zero digest is `ZERO_DIGEST`.
 */
module Domain {

  const ZERO_DIGEST: nat := 0

  datatype Kind =
    | UnknownKind
    | Types
    | Sequences
    | Tables
    | Synonyms
    | Indexes
    | Views
    | Functions
    | Procedures
    | Triggers

  /** Programmable objects, replaced in place by CREATE OR ALTER. */
  predicate IsModule(kind: Kind) {
    kind.Views? || kind.Functions? || kind.Procedures? || kind.Triggers?
  }

  /** Kinds applied in the ordered transactional batch, before any module. */
  predicate IsTransactional(kind: Kind) {
    kind.Tables? || kind.Indexes? || kind.Types? || kind.Sequences? || kind.Synonyms?
  }

  datatype Action =
    | CreateObject
    | AdoptExisting
    | SkipUnchanged
    | UpdateExistingModule
    | ReprocessChanged
    | ReprocessChangedBlocked
    | Fail

  datatype SchemaAction = CreateSchema | SchemaExists
}
