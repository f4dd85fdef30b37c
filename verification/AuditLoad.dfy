/**
 Reading the audit history back: the newest object row per key gives the prior
 digest and tells whether the live object drifted since it was recorded.
 */
module AuditLoad {
  import opened Prelude
  import opened Domain
  import opened Server
  import Planner

  /** The newest object row of `key`. */
  function Latest(history: seq<Row>, key: string): (row: Option<Row>)
    ensures row.Some? ==> row.value in history && row.value.key == key && row.value.kind.ObjectRecord?
    ensures row.None? ==> forall r :: r in history && r.kind.ObjectRecord? ==> r.key != key
  {
    if history == [] then None
    else if history[|history| - 1].key == key && history[|history| - 1].kind.ObjectRecord? then Some(history[|history| - 1])
    else Latest(history[..|history| - 1], key)
  }

  /** 64 hex digits decode to a digest, a blank to the zero digest, anything else to nothing. */
  function Decoded(checksum: StoredChecksum): Option<nat> {
    match checksum
    case Hex(digest) => Some(digest)
    case Blank => Some(ZERO_DIGEST)
    case Garbled => None
  }

  /** The server's comparison of the captured definition with the current one. */
  predicate Drifted(db: Database, row: Row) {
    row.checksum.Hex? && (row.live.None? || row.key !in db.live || row.live.value != db.live[row.key].definition)
  }

  /** One line of the server's answer. */
  datatype Line = Line(key: string, checksum: StoredChecksum, drift: bool)

  /** The newest row of every key that has one. */
  function Lines(db: Database, keys: seq<string>): seq<Line> {
    if keys == [] then []
    else
      var key := keys[|keys| - 1];
      var earlier := Lines(db, keys[..|keys| - 1]);
      match Latest(db.history, key)
      case None => earlier
      case Some(row) => earlier + [Line(key, row.checksum, Drifted(db, row))]
  }

  /** Every key's newest row can be decoded. */
  predicate Decodable(db: Database, keys: seq<string>) {
    forall k :: k in keys && Latest(db.history, k).Some? ==> Decoded(Latest(db.history, k).value.checksum).Some?
  }

  function DigestOf(db: Database, key: string): nat
    requires Latest(db.history, key).Some?
  {
    Decoded(Latest(db.history, key).value.checksum).GetOr(ZERO_DIGEST)
  }

  /** What the history says about `keys`; an undecodable checksum reads as no baseline. */
  function ChecksumsOf(db: Database, keys: seq<string>): Planner.Checksums {
    Planner.Checksums(
      map k | k in keys && Latest(db.history, k).Some? :: DigestOf(db, k),
      set k | k in keys && Latest(db.history, k).Some? && DigestOf(db, k) != ZERO_DIGEST && Drifted(db, Latest(db.history, k).value))
  }

  lemma {:induction false} OneMoreKey(db: Database, keys: seq<string>, k: string)
    ensures var before, after := ChecksumsOf(db, keys), ChecksumsOf(db, keys + [k]);
            match Latest(db.history, k)
            case None => after == before
            case Some(row) =>
              && after.digests == before.digests[k := DigestOf(db, k)]
              && after.drift == if DigestOf(db, k) != ZERO_DIGEST && Drifted(db, row) then before.drift + {k} else before.drift
    ensures Decodable(db, keys + [k]) <==>
              Decodable(db, keys) && (Latest(db.history, k).Some? ==> Decoded(Latest(db.history, k).value.checksum).Some?)
  {
  }

  /** One line of the answer added to the map. */
  function AddLine(c: Planner.Checksums, line: Line, repair: bool): Result<Planner.Checksums, string> {
    match Decoded(line.checksum)
    case Some(digest) =>
      Ok(Planner.Checksums(c.digests[line.key := digest], if digest != ZERO_DIGEST && line.drift then c.drift + {line.key} else c.drift))
    case None =>
      if repair then Ok(c.(digests := c.digests[line.key := ZERO_DIGEST])) else Err(line.key)
  }

  /** All lines in turn; the first undecodable one is an error unless the command repairs checksums. */
  function FromLines(lines: seq<Line>, repair: bool): Result<Planner.Checksums, string> {
    if lines == [] then Ok(Planner.Checksums(map[], {}))
    else
      match FromLines(lines[..|lines| - 1], repair)
      case Err(e) => Err(e)
      case Ok(c) => AddLine(c, lines[|lines| - 1], repair)
  }

  lemma {:induction false} FromFailedPrefix(lines: seq<Line>, n: nat, repair: bool)
    requires n <= |lines| && FromLines(lines[..n], repair).Err?
    ensures FromLines(lines, repair) == FromLines(lines[..n], repair)
    decreases |lines|
  {
    if n == |lines| {
      assert lines[..n] == lines;
    } else {
      var shorter := lines[..|lines| - 1];
      assert shorter[..n] == lines[..n];
      FromFailedPrefix(shorter, n, repair);
    }
  }

  method ChecksumMapFromRows(lines: seq<Line>, repair: bool) returns (r: Result<Planner.Checksums, string>)
    ensures r == FromLines(lines, repair)
  {
    var digests: map<string, nat>, drift: set<string> := map[], {};
    var i := 0;
    while i < |lines|
      invariant 0 <= i <= |lines|
      invariant FromLines(lines[..i], repair) == Ok(Planner.Checksums(digests, drift))
    {
      var line := lines[i];
      assert lines[..i + 1][..i] == lines[..i];
      var decoded := Decoded(line.checksum);
      if decoded.Some? {
        digests := digests[line.key := decoded.value];
        if decoded.value != ZERO_DIGEST && line.drift {
          drift := drift + {line.key};
        }
      } else if repair {
        digests := digests[line.key := ZERO_DIGEST];
      } else {
        FromFailedPrefix(lines, i + 1, repair);
        return Err(line.key);
      }
      i := i + 1;
    }
    assert lines[..i] == lines;
    return Ok(Planner.Checksums(digests, drift));
  }

  /** Loading agrees with the newest rows, and is refused exactly if one cannot be decoded and nothing repairs it. */
  lemma {:induction false} LoadedFromHistory(db: Database, keys: seq<string>, repair: bool)
    ensures var r := FromLines(Lines(db, keys), repair);
            (r.Ok? <==> repair || Decodable(db, keys)) && (r.Ok? ==> r.value == ChecksumsOf(db, keys))
  {
    if keys == [] {
      assert ChecksumsOf(db, keys) == Planner.Checksums(map[], {});
    } else {
      var n := |keys| - 1;
      LoadedFromHistory(db, keys[..n], repair);
      OneMoreKey(db, keys[..n], keys[n]);
      assert keys[..n] + [keys[n]] == keys;
      var lines := Lines(db, keys[..n]);
      if Latest(db.history, keys[n]).Some? {
        assert Lines(db, keys)[..|lines|] == lines;
      }
    }
  }

  /** No history at all: one zero digest per key, without a query. */
  function NoBaselines(keys: seq<string>): Planner.Checksums {
    Planner.Checksums(map k | k in keys :: ZERO_DIGEST, {})
  }

  /** The checksums of a live plan. */
  function Loaded(db: Database, keys: seq<string>, repair: bool): Result<Planner.Checksums, string> {
    if keys == [] then Ok(Planner.Checksums(map[], {}))
    else if db.history == [] then Ok(NoBaselines(keys))
    else FromLines(Lines(db, keys), repair)
  }

  /** A key has a usable prior digest exactly if its newest row decodes to a non-zero one. */
  lemma {:induction false} LoadedPrior(db: Database, keys: seq<string>, repair: bool, key: string)
    requires Loaded(db, keys, repair).Ok? && key in keys
    ensures var c := Loaded(db, keys, repair).value;
            && (key in c.digests && c.digests[key] != ZERO_DIGEST <==>
                  Latest(db.history, key).Some? && DigestOf(db, key) != ZERO_DIGEST)
            && (Latest(db.history, key).Some? ==> key in c.digests && c.digests[key] == DigestOf(db, key))
            && (key in c.drift <==>
                  Latest(db.history, key).Some? && DigestOf(db, key) != ZERO_DIGEST && Drifted(db, Latest(db.history, key).value))
  {
    LoadedFromHistory(db, keys, repair);
  }
}
