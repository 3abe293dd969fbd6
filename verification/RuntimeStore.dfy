/**
 * The on-disk store of runtime extractor sources: an index file naming one
 * cached generation per source, a directory per generation, and a staging area.
 *
 * A char of a string stands for one byte. The file system is reduced to atomic
 * renames, directory creation and recursive removal, each of which may fail; a
 * recursive removal that is cut short leaves part of the directory behind.
 */
module RuntimeStore {
  import opened Prelude
  import opened Utf8
  import opened Locator

  const MAX_INDEX_BYTES: nat := 1024 * 1024
  const MAX_SOURCES: nat := 128

  datatype Row = Row(sourceId: string, kind: Kind, locator: string, packId: string,
                     packVersion: string, signer: string, gen: string)

  /** A generation directory is addressed by its pack and its generation name. */
  datatype Key = Key(pack: string, gen: string)

  function KeyOf(row: Row): Key { Key(row.packId, row.gen) }

  /** A verified pack as a loader returns it; `body` stands for its bytes. */
  datatype Candidate = Candidate(packId: string, packVersion: string, signer: string,
                                 zipped: bool, body: seq<nat>)

  /** One file of a generation, tagged with the candidate it was written from. */
  datatype CacheFile =
    | ManifestFile(from: Candidate)
    | PayloadFile(from: Candidate)
    | SignatureFile(from: Candidate)
    | LockFile(from: Candidate)
    | AssetFile(from: Candidate)

  type Dir = seq<CacheFile>

  function FilesOf(c: Candidate): Dir {
    [ManifestFile(c), PayloadFile(c), SignatureFile(c), LockFile(c)]
    + if c.zipped then [AssetFile(c)] else []
  }

  predicate NeedsAsset(kind: Kind) { kind != LocalDirectory }

  /**
   * Reading a generation back. Signature and digest checks are a library
   * matter: they succeed exactly on a directory holding every file of one
   * candidate, including the asset when the source kind requires it.
   */
  function ReadCandidate(dir: Dir, kind: Kind): Option<Candidate> {
    if dir != [] && dir[0].ManifestFile? && dir == FilesOf(dir[0].from)
       && (NeedsAsset(kind) ==> dir[0].from.zipped)
    then Some(dir[0].from)
    else None
  }

  // ---- the index file ----------------------------------------------------

  datatype IndexFile =
    | Malformed
    | IndexFile(size: nat, schemaVersion: int, rows: seq<Row>)

  predicate IsLowerHex(c: char) { '0' <= c <= '9' || 'a' <= c <= 'f' }

  predicate IsLowerHexOfLength(s: string, n: nat) {
    |s| == n && forall i :: 0 <= i < |s| ==> IsLowerHex(s[i])
  }

  predicate IsSlugEdge(c: char) { 'a' <= c <= 'z' || '0' <= c <= '9' }

  predicate IsPackId(s: string) {
    && 3 <= |s| <= 64
    && IsSlugEdge(s[0]) && IsSlugEdge(s[|s| - 1])
    && forall i :: 0 < i < |s| - 1 ==> IsSlugEdge(s[i]) || s[i] in {'.', '_', '-'}
  }

  /** A version always comes out of a JSON decoder, so it is well-formed UTF-8. */
  predicate IsPackVersion(s: string) {
    && s != "" && IsUtf8(s) && IsTrimmed(s)
    && forall i :: 0 <= i < |s| ==> s[i] !in {'/', '\\', '\0', ' ', '\t', '\r', '\n', '\U{0b}', '\U{0c}'}
  }

  predicate RowFieldsOk(row: Row) {
    && IsLowerHexOfLength(row.sourceId, 32)
    && IsLowerHexOfLength(row.gen, 32)
    && IsLowerHexOfLength(row.signer, 64)
    && IsPackId(row.packId)
    && IsPackVersion(row.packVersion)
    && IsDurable(row.kind, row.locator)
  }

  predicate AllFieldsOk(rows: seq<Row>) {
    forall i :: 0 <= i < |rows| ==> RowFieldsOk(rows[i])
  }

  predicate DistinctSources(rows: seq<Row>) {
    forall i, j :: 0 <= i < j < |rows| ==> rows[i].sourceId != rows[j].sourceId
  }

  predicate DistinctPacks(rows: seq<Row>) {
    forall i, j :: 0 <= i < j < |rows| ==> rows[i].packId != rows[j].packId
  }

  predicate ValidRows(rows: seq<Row>) {
    && |rows| <= MAX_SOURCES
    && AllFieldsOk(rows)
    && DistinctSources(rows)
    && DistinctPacks(rows)
  }

  function SourcesIn(rows: seq<Row>): set<string> { set i | 0 <= i < |rows| :: rows[i].sourceId }

  function PacksIn(rows: seq<Row>): set<string> { set i | 0 <= i < |rows| :: rows[i].packId }

  function KeysIn(rows: seq<Row>): set<Key> { set i | 0 <= i < |rows| :: KeyOf(rows[i]) }

  /** A row that is malformed, or repeats a key of an earlier one, makes the rows invalid. */
  lemma RefusedRow(rows: seq<Row>, i: nat)
    requires i < |rows|
    requires var row := rows[i];
             || row.sourceId in SourcesIn(rows[..i]) || row.packId in PacksIn(rows[..i])
             || KeyOf(row) in KeysIn(rows[..i]) || !RowFieldsOk(row)
    ensures !(AllFieldsOk(rows) && DistinctSources(rows) && DistinctPacks(rows))
  {
    if rows[i].sourceId in SourcesIn(rows[..i]) {
      var j :| 0 <= j < i && rows[..i][j].sourceId == rows[i].sourceId;
      assert !DistinctSources(rows);
    } else if KeyOf(rows[i]) in KeysIn(rows[..i]) || rows[i].packId in PacksIn(rows[..i]) {
      var j :| 0 <= j < i && rows[..i][j].packId == rows[i].packId;
      assert !DistinctPacks(rows);
    }
  }

  lemma AcceptedSource(rows: seq<Row>, row: Row)
    requires DistinctSources(rows) && row.sourceId !in SourcesIn(rows)
    ensures DistinctSources(rows + [row]) && SourcesIn(rows + [row]) == SourcesIn(rows) + {row.sourceId}
  {
    forall j | 0 <= j < |rows|
      ensures (rows + [row])[j] == rows[j] && rows[j].sourceId in SourcesIn(rows)
    {
    }
    assert (rows + [row])[|rows|] == row;
  }

  lemma AcceptedPack(rows: seq<Row>, row: Row)
    requires DistinctPacks(rows) && row.packId !in PacksIn(rows)
    ensures DistinctPacks(rows + [row]) && PacksIn(rows + [row]) == PacksIn(rows) + {row.packId}
  {
    forall j | 0 <= j < |rows|
      ensures (rows + [row])[j] == rows[j] && rows[j].packId in PacksIn(rows)
    {
    }
    assert (rows + [row])[|rows|] == row;
  }

  lemma AcceptedKey(rows: seq<Row>, row: Row)
    ensures KeysIn(rows + [row]) == KeysIn(rows) + {KeyOf(row)}
  {
    forall j | 0 <= j < |rows|
      ensures (rows + [row])[j] == rows[j]
    {
    }
    assert (rows + [row])[|rows|] == row;
  }

  lemma AcceptedFields(rows: seq<Row>, row: Row)
    requires AllFieldsOk(rows) && RowFieldsOk(row)
    ensures AllFieldsOk(rows + [row])
  {
    forall j | 0 <= j < |rows| + 1
      ensures RowFieldsOk((rows + [row])[j])
    {
      if j < |rows| { assert (rows + [row])[j] == rows[j]; }
    }
  }

  lemma AcceptedRow(rows: seq<Row>, i: nat)
    requires i < |rows|
    requires AllFieldsOk(rows[..i]) && DistinctSources(rows[..i]) && DistinctPacks(rows[..i])
    requires rows[i].sourceId !in SourcesIn(rows[..i]) && rows[i].packId !in PacksIn(rows[..i])
    requires RowFieldsOk(rows[i])
    ensures AllFieldsOk(rows[..i + 1]) && DistinctSources(rows[..i + 1]) && DistinctPacks(rows[..i + 1])
    ensures SourcesIn(rows[..i + 1]) == SourcesIn(rows[..i]) + {rows[i].sourceId}
    ensures PacksIn(rows[..i + 1]) == PacksIn(rows[..i]) + {rows[i].packId}
    ensures KeysIn(rows[..i + 1]) == KeysIn(rows[..i]) + {KeyOf(rows[i])}
  {
    assert rows[..i + 1] == rows[..i] + [rows[i]];
    AcceptedFields(rows[..i], rows[i]);
    AcceptedSource(rows[..i], rows[i]);
    AcceptedPack(rows[..i], rows[i]);
    AcceptedKey(rows[..i], rows[i]);
  }

  predicate ReadableIndex(file: IndexFile) {
    && file.IndexFile?
    && file.size <= MAX_INDEX_BYTES
    && file.schemaVersion == 1
    && ValidRows(file.rows)
  }

  // ---- the encoded size of an index the store writes ----------------------

  function JsonCharSize(c: char): nat {
    if c in {'"', '\\', '\U{08}', '\t', '\n', '\U{0c}', '\r'} then 2
    else if c < ' ' || c in {'<', '>', '&'} then 6
    else 1
  }

  /** The line separators U+2028 and U+2029, which are escaped. */
  predicate IsLineSeparator(rune: string) {
    rune == "\U{e2}\U{80}\U{a8}" || rune == "\U{e2}\U{80}\U{a9}"
  }

  /** What a string takes as JSON; a byte that is no UTF-8 is written as an escaped U+FFFD. */
  function JsonSize(s: string): nat
    decreases |s|
  {
    if s == "" then 0
    else if s[0] < '\U{80}' then JsonCharSize(s[0]) + JsonSize(s[1..])
    else if Width(s) == 0 then 6 + JsonSize(s[1..])
    else (if IsLineSeparator(s[..Width(s)]) then 6 else Width(s)) + JsonSize(s[Width(s)..])
  }

  function KindName(kind: Kind): string {
    match kind
    case LocalZip => "local_zip"
    case LocalDirectory => "local_directory"
    case RemoteLock => "remote_lock"
  }

  /** The characters of one encoded row besides its seven values. */
  const ROW_OVERHEAD: nat :=
    |"    {\n"| + 7 * |"      \"\": \"\",\n"| - |","| + |"    },\n"|
    + |"source_id"| + |"kind"| + |"locator"| + |"pack_id"| + |"pack_version"|
    + |"signer_fingerprint"| + |"cache_generation"|

  function RowSize(row: Row): nat {
    ROW_OVERHEAD + JsonSize(row.sourceId) + JsonSize(KindName(row.kind)) + JsonSize(row.locator)
    + JsonSize(row.packId) + JsonSize(row.packVersion) + JsonSize(row.signer) + JsonSize(row.gen)
  }

  function RowsSize(rows: seq<Row>): nat {
    if rows == [] then 0 else RowSize(rows[0]) + RowsSize(rows[1..])
  }

  function EncodedSize(rows: seq<Row>): nat {
    if rows == [] then |"{\n  \"schema_version\": 1,\n  \"sources\": []\n}\n"|
    else |"{\n  \"schema_version\": 1,\n  \"sources\": [\n  ]\n}\n"| - |","| + RowsSize(rows)
  }

  /** A row as a JSON decoder returns it after the encoder wrote it; the other values are plain. */
  function Reread(row: Row): Row { row.(locator := Repair(row.locator)) }

  function RereadRows(rows: seq<Row>): (r: seq<Row>)
    ensures |r| == |rows|
  {
    seq(|rows|, i requires 0 <= i < |rows| => Reread(rows[i]))
  }

  /** The file `replaceIndex` writes, with its rows as they will be decoded: nothing bounds its size. */
  function WrittenIndex(rows: seq<Row>): IndexFile {
    IndexFile(EncodedSize(rows), 1, RereadRows(rows))
  }

  // ---- disk steps ----------------------------------------------------------

  datatype Disk = Disk(index: Option<IndexFile>, packs: map<Key, Dir>, staging: map<string, Dir>)

  function IndexRows(d: Disk): seq<Row> {
    if d.index.Some? && d.index.value.IndexFile? then d.index.value.rows else []
  }

  function AddStagingFile(d: Disk, gen: string, file: CacheFile): Disk
    requires gen in d.staging
  {
    d.(staging := d.staging[gen := d.staging[gen] + [file]])
  }

  function RenameGeneration(d: Disk, key: Key): Disk
    requires key.gen in d.staging
  {
    d.(packs := d.packs[key := d.staging[key.gen]], staging := d.staging - {key.gen})
  }

  /** Recursive removal; `left` is what an interrupted removal leaves behind. */
  function RemoveStaging(d: Disk, gen: string, left: Option<Dir>): Disk {
    if gen !in d.staging then d
    else if left.None? then d.(staging := d.staging - {gen})
    else d.(staging := d.staging[gen := left.value])
  }

  function RemoveGeneration(d: Disk, key: Key, left: Option<Dir>): Disk {
    if key !in d.packs then d
    else if left.None? then d.(packs := d.packs - {key})
    else d.(packs := d.packs[key := left.value])
  }

  datatype StoreError = Unreadable | WriteFailed

  /** Where staging is hit by a failing system call, and what clean-up leaves of the directory. */
  datatype Fault = NoFault | MkdirFails | FailAt(file: nat, left: Option<Dir>)

  /** The same for finalising: `CheckFails` is the check of the renamed directory. */
  datatype RenameFault = Smooth | RenameFails | CheckFails(left: Option<Dir>)

  class Store {
    var index: Option<IndexFile>
    var packs: map<Key, Dir>
    var staging: map<string, Dir>

    function View(): Disk
      reads this
    {
      Disk(index, packs, staging)
    }

    constructor (d: Disk)
      ensures View() == d
    {
      index, packs, staging := d.index, d.packs, d.staging;
    }

    /** Reads the index, rejecting duplicates with one seen-set per key as it goes. */
    method ReadIndex() returns (r: Result<Option<seq<Row>>, StoreError>)
      ensures r == ReadIndexResult(index)
    {
      if index.None? { return Ok(None); }
      var file := index.value;
      if file.Malformed? || file.size > MAX_INDEX_BYTES || file.schemaVersion != 1
         || |file.rows| > MAX_SOURCES {
        return Err(Unreadable);
      }
      var valid := ValidateRows(file.rows);
      return if valid then Ok(Some(file.rows)) else Err(Unreadable);
    }

    static method ValidateRows(rows: seq<Row>) returns (valid: bool)
      ensures valid <==> AllFieldsOk(rows) && DistinctSources(rows) && DistinctPacks(rows)
    {
      var seenSources: set<string> := {};
      var seenPacks: set<string> := {};
      var seenKeys: set<Key> := {};
      for i := 0 to |rows|
        invariant seenSources == SourcesIn(rows[..i])
        invariant seenPacks == PacksIn(rows[..i])
        invariant seenKeys == KeysIn(rows[..i])
        invariant AllFieldsOk(rows[..i]) && DistinctSources(rows[..i]) && DistinctPacks(rows[..i])
      {
        var row := rows[i];
        if row.sourceId in seenSources || row.packId in seenPacks || KeyOf(row) in seenKeys
           || !RowFieldsOk(row) {
          RefusedRow(rows, i);
          return false;
        }
        AcceptedRow(rows, i);
        seenSources := seenSources + {row.sourceId};
        seenPacks := seenPacks + {row.packId};
        seenKeys := seenKeys + {KeyOf(row)};
      }
      assert rows[..|rows|] == rows;
      return true;
    }

    /**
     * Creates the staging directory and writes the candidate's files into it one
     * by one. A fault on the way removes the directory again as far as it can.
     */
    method WriteCandidateToStaging(gen: string, c: Candidate, fault: Fault) returns (ok: bool)
      modifies this
      ensures ok <==> gen !in old(staging) && !fault.MkdirFails? && (fault.FailAt? ==> |FilesOf(c)| <= fault.file)
      ensures ok ==> View() == old(View()).(staging := old(staging)[gen := FilesOf(c)])
      ensures !ok && (gen in old(staging) || fault.MkdirFails?) ==> View() == old(View())
      ensures !ok && gen !in old(staging) && fault.FailAt? ==>
                View() == if fault.left.None? then old(View())
                          else old(View()).(staging := old(staging)[gen := fault.left.value])
    {
      if gen in staging || fault.MkdirFails? { return false; }
      staging := staging[gen := []];
      var files := FilesOf(c);
      for i := 0 to |files|
        invariant View() == old(View()).(staging := old(staging)[gen := files[..i]])
        invariant fault.FailAt? ==> i <= fault.file
      {
        if fault.FailAt? && fault.file == i {
          DeleteStagingGeneration(gen, fault.left);
          assert old(staging)[gen := files[..i]] - {gen} == old(staging);
          return false;
        }
        var after := AddStagingFile(View(), gen, files[i]);
        assert after.staging[gen] == files[..i + 1];
        assert after.staging == old(staging)[gen := files[..i + 1]];
        staging := after.staging;
      }
      assert files[..|files|] == files;
      return true;
    }

    /**
     * Renames a staged generation into place unless the target already exists. If
     * the check of the renamed directory fails, the target is removed again.
     */
    method FinalizeCandidateGeneration(key: Key, fault: RenameFault) returns (ok: bool)
      modifies this
      ensures var possible := key.gen in old(staging) && key !in old(packs);
              && (ok <==> possible && fault.Smooth?)
              && View() == if !possible || fault.RenameFails? then old(View())
                           else if fault.Smooth? then RenameGeneration(old(View()), key)
                           else RemoveGeneration(RenameGeneration(old(View()), key), key, fault.left)
    {
      if fault.RenameFails? || key.gen !in staging || key in packs { return false; }
      packs, staging := packs[key := staging[key.gen]], staging - {key.gen};
      if fault.CheckFails? {
        DeleteGeneration(key, fault.left);
        return false;
      }
      return true;
    }

    /** Writes a temporary file and renames it over the index: all of it or none of it. */
    method ReplaceIndex(rows: seq<Row>, fails: bool) returns (ok: bool)
      modifies this
      ensures ok <==> !fails
      ensures View() == if ok then old(View()).(index := Some(WrittenIndex(rows))) else old(View())
    {
      if fails { return false; }
      index := Some(WrittenIndex(rows));
      return true;
    }

    method DeleteStagingGeneration(gen: string, left: Option<Dir>)
      modifies this
      ensures View() == RemoveStaging(old(View()), gen, left)
    {
      if gen in staging {
        staging := if left.None? then staging - {gen} else staging[gen := left.value];
      }
    }

    method DeleteGeneration(key: Key, left: Option<Dir>)
      modifies this
      ensures View() == RemoveGeneration(old(View()), key, left)
    {
      if key in packs {
        packs := if left.None? then packs - {key} else packs[key := left.value];
      }
    }
  }

  /** What reading an index file means: absent, refused, or the rows it holds. */
  function ReadIndexResult(index: Option<IndexFile>): Result<Option<seq<Row>>, StoreError> {
    if index.None? then Ok(None)
    else if ReadableIndex(index.value) then Ok(Some(index.value.rows))
    else Err(Unreadable)
  }

  /**
   * A written index reads back exactly when its encoding fits and every locator
   * is well-formed UTF-8; what else is read back are the rows with their locators repaired.
   */
  lemma WrittenIndexReadsBack(rows: seq<Row>)
    requires ValidRows(rows)
    ensures var read := ReadIndexResult(Some(WrittenIndex(rows)));
            && (read == Ok(Some(rows))
                <==> EncodedSize(rows) <= MAX_INDEX_BYTES
                     && forall i :: 0 <= i < |rows| ==> IsUtf8(rows[i].locator))
            && (read.Ok? ==> read == Ok(Some(RereadRows(rows))))
  {
    RereadKeepsExactlyUtf8(rows);
  }

  lemma RereadKeepsExactlyUtf8(rows: seq<Row>)
    ensures RereadRows(rows) == rows <==> forall i :: 0 <= i < |rows| ==> IsUtf8(rows[i].locator)
  {
    forall i | 0 <= i < |rows|
      ensures RereadRows(rows)[i] == rows[i] <==> IsUtf8(rows[i].locator)
    {
      RepairKeepsExactlyUtf8(rows[i].locator);
    }
  }

  /** Rows that were read from a file are written and read again unchanged. */
  lemma RereadIsIdempotent(rows: seq<Row>)
    ensures RereadRows(RereadRows(rows)) == RereadRows(rows)
  {
    forall i | 0 <= i < |rows|
      ensures Reread(Reread(rows[i])) == Reread(rows[i])
    {
      RepairIsIdempotent(rows[i].locator);
    }
  }

  /** A generation written in full from a candidate reads back as that candidate. */
  lemma FullGenerationReadsBack(c: Candidate, kind: Kind)
    ensures ReadCandidate(FilesOf(c), kind) == if NeedsAsset(kind) ==> c.zipped then Some(c) else None
  {
    assert FilesOf(c)[0] == ManifestFile(c);
  }

  // ---- the two ways a written index is not read back ------------------------

  function HexDigit(n: nat): (c: char)
    requires n < 16
    ensures IsLowerHex(c)
  {
    "0123456789abcdef"[n]
  }

  lemma HexDigitInjective(a: nat, b: nat)
    requires a < 16 && b < 16 && HexDigit(a) == HexDigit(b)
    ensures a == b
  {
  }

  function Repeat(c: char, n: nat): string { seq(n, _ => c) }

  function HexName(i: nat): (s: string)
    requires i < 256
    ensures IsLowerHexOfLength(s, 32) && s[30] == HexDigit(i / 16) && s[31] == HexDigit(i % 16)
  {
    Repeat('0', 30) + [HexDigit(i / 16), HexDigit(i % 16)]
  }

  function SampleRow(i: nat, kind: Kind, locator: string): Row
    requires i < MAX_SOURCES
  {
    Row(HexName(i), kind, locator, HexName(i), "1", Repeat('0', 64), HexName(i))
  }

  lemma SampleVersionIsOk(version: string)
    requires version == "1"
    ensures IsPackVersion(version)
  {
    assert version[Width(version)..] == "";
    forall j | 0 <= j < |SPACES|
      ensures !(SPACES[j] <= version) && !EndsWith(version, SPACES[j])
    {
      assert SPACES[j] != "" && SPACES[j][0] != '1';
    }
  }

  lemma SampleRowFieldsOk(i: nat, kind: Kind, locator: string)
    requires i < MAX_SOURCES && IsDurable(kind, locator)
    ensures RowFieldsOk(SampleRow(i, kind, locator))
  {
    SampleVersionIsOk("1");
  }

  /** The longest locator the checks admit: the URL of a lock file with a long query. */
  function WideLocator(): string { PaddedUrl(MAX_LOCATOR_BYTES - 22) }

  function WideRows(): seq<Row> {
    seq(MAX_SOURCES, i requires 0 <= i < MAX_SOURCES => SampleRow(i, RemoteLock, WideLocator()))
  }

  lemma {:induction false} JsonSizeAtLeast(s: string)
    ensures JsonSize(s) >= |s|
    decreases |s|
  {
    if s != "" { JsonSizeAtLeast(s[if Width(s) == 0 then 1 else Width(s)..]); }
  }

  lemma {:induction false} JsonSizeAtMost(s: string)
    ensures JsonSize(s) <= 6 * |s|
    decreases |s|
  {
    if s != "" { JsonSizeAtMost(s[if Width(s) == 0 then 1 else Width(s)..]); }
  }

  lemma RowSizeAtLeast(row: Row)
    ensures RowSize(row) >= |row.locator|
  {
    JsonSizeAtLeast(row.locator);
  }

  lemma {:induction false} RowsSizeAtLeast(rows: seq<Row>)
    requires forall i :: 0 <= i < |rows| ==> |rows[i].locator| == MAX_LOCATOR_BYTES
    ensures RowsSize(rows) >= |rows| * MAX_LOCATOR_BYTES
  {
    if rows != [] {
      RowSizeAtLeast(rows[0]);
      RowsSizeAtLeast(rows[1..]);
    }
  }

  lemma HexNameInjective(i: nat, j: nat)
    requires i < 256 && j < 256 && HexName(i) == HexName(j)
    ensures i == j
  {
    HexDigitInjective(i / 16, j / 16);
    HexDigitInjective(i % 16, j % 16);
  }

  lemma WideRowsAreDistinct()
    ensures DistinctSources(WideRows()) && DistinctPacks(WideRows())
  {
    var rows := WideRows();
    forall i, j | 0 <= i < j < |rows|
      ensures rows[i].sourceId != rows[j].sourceId && rows[i].packId != rows[j].packId
    {
      assert rows[i].sourceId == rows[i].packId == HexName(i);
      assert rows[j].sourceId == rows[j].packId == HexName(j);
      if HexName(i) == HexName(j) { HexNameInjective(i, j); }
    }
  }

  lemma WideRowsAreValid()
    ensures ValidRows(WideRows())
  {
    PaddedUrlIsDurable(MAX_LOCATOR_BYTES - 22);
    WideRowsAreDistinct();
    forall i | 0 <= i < |WideRows()|
      ensures RowFieldsOk(WideRows()[i])
    {
      SampleRowFieldsOk(i, RemoteLock, WideLocator());
    }
  }

  lemma WideRowsExceedTheLimit(rows: seq<Row>)
    requires |rows| == MAX_SOURCES
    requires forall i :: 0 <= i < |rows| ==> |rows[i].locator| == MAX_LOCATOR_BYTES
    ensures !ReadableIndex(WrittenIndex(rows))
  {
    RowsSizeAtLeast(rows);
    assert EncodedSize(rows) > MAX_INDEX_BYTES;
  }

  /** 128 admissible sources can be written as an index that no restart will read. */
  lemma AdmissibleIndexCanBeUnreadable()
    ensures ValidRows(WideRows())
    ensures ReadIndexResult(Some(WrittenIndex(WideRows()))) == Err(Unreadable)
  {
    WideRowsAreValid();
    WideRowsExceedTheLimit(WideRows());
  }

  /** One source, a local file whose name is no UTF-8. */
  function OddRows(): seq<Row> { [SampleRow(0, LocalZip, "/\U{ff}")] }

  lemma OddLocatorReread()
    ensures Repair("/\U{ff}") == "/" + REPLACEMENT && IsDurable(LocalZip, "/" + REPLACEMENT)
  {
    var s := "/\U{ff}";
    assert s[..1] == "/" && s[Width(s)..] == "\U{ff}" && "\U{ff}"[1..] == "";
    assert Repair("\U{ff}") == REPLACEMENT + "";
  }

  lemma OddRowsFit()
    ensures EncodedSize(OddRows()) <= MAX_INDEX_BYTES
  {
    var row := OddRows()[0];
    JsonSizeAtMost(row.sourceId);
    JsonSizeAtMost(KindName(row.kind));
    JsonSizeAtMost(row.locator);
    JsonSizeAtMost(row.packId);
    JsonSizeAtMost(row.packVersion);
    JsonSizeAtMost(row.signer);
    JsonSizeAtMost(row.gen);
    assert OddRows()[1..] == [];
  }

  lemma OddRowsReread()
    ensures RereadRows(OddRows()) == [SampleRow(0, LocalZip, "/" + REPLACEMENT)]
  {
    OddLocatorReread();
  }

  /** Rows that fit and stay admissible are read back with their locators repaired. */
  lemma RereadRowsAreRead(rows: seq<Row>)
    requires EncodedSize(rows) <= MAX_INDEX_BYTES && ValidRows(RereadRows(rows))
    ensures ReadIndexResult(Some(WrittenIndex(rows))) == Ok(Some(RereadRows(rows)))
  {
  }

  lemma OneRowIsValid(row: Row)
    requires RowFieldsOk(row)
    ensures ValidRows([row])
  {
  }

  lemma OddRowsAreValid()
    ensures ValidRows(OddRows()) && ValidRows(RereadRows(OddRows()))
  {
    OddFileNameIsDurable();
    OddLocatorReread();
    OddRowsReread();
    SampleRowFieldsOk(0, LocalZip, "/\U{ff}");
    SampleRowFieldsOk(0, LocalZip, "/" + REPLACEMENT);
    OneRowIsValid(SampleRow(0, LocalZip, "/\U{ff}"));
    OneRowIsValid(SampleRow(0, LocalZip, "/" + REPLACEMENT));
  }

  /** An admissible locator can come back as another path, without any error. */
  lemma AdmissibleLocatorCanChange()
    ensures ValidRows(OddRows())
    ensures ReadIndexResult(Some(WrittenIndex(OddRows()))) == Ok(Some(RereadRows(OddRows())))
    ensures RereadRows(OddRows()) != OddRows()
  {
    OddFileNameIsDurable();
    OddRowsAreValid();
    OddRowsFit();
    RereadRowsAreRead(OddRows());
    RereadKeepsExactlyUtf8(OddRows());
  }
}
