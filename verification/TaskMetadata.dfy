/** Merging what sibling rows of one download know: files, uris, names and groups. */
module TaskMetadata {
  import opened Prelude
  import opened Rpc

  // ---- blank strings -----------------------------------------------------------------------

  /** The code points Unicode calls white space. */
  predicate IsSpace(c: char) {
    var u := c as int;
    || 0x09 <= u <= 0x0D || u == 0x20 || u == 0x85 || u == 0xA0 || u == 0x1680
    || 0x2000 <= u <= 0x200A || u == 0x2028 || u == 0x2029 || u == 0x202F || u == 0x205F || u == 0x3000
  }

  /** Something is left after trimming. */
  predicate NonBlank(s: string) { exists i :: 0 <= i < |s| && !IsSpace(s[i]) }

  function FillBlank(dst: string, src: string): string {
    if !NonBlank(dst) && NonBlank(src) then src else dst
  }

  // ---- files ---------------------------------------------------------------------------------

  predicate NamedUri(u: Uri) { NonBlank(u.uri) }

  predicate NamedFile(f: File) { NonBlank(f.path) }

  function CleanUris(us: seq<Uri>): seq<Uri> { Filter(us, NamedUri) }

  function CleanFiles(fs: seq<File>): seq<File> {
    if fs == [] then []
    else (if NamedFile(fs[0]) then [File(fs[0].path, CleanUris(fs[0].uris))] else []) + CleanFiles(fs[1..])
  }

  /** The first uri entry with that address, or the length of the list. */
  function UriIndex(us: seq<Uri>, uri: string): (j: nat)
    ensures j <= |us| && (j < |us| ==> us[j].uri == uri)
    ensures forall k :: 0 <= k < j ==> us[k].uri != uri
  {
    if us == [] || us[0].uri == uri then 0 else 1 + UriIndex(us[1..], uri)
  }

  function FileIndex(fs: seq<File>, path: string): (i: nat)
    ensures i <= |fs| && (i < |fs| ==> fs[i].path == path)
    ensures forall k :: 0 <= k < i ==> fs[k].path != path
  {
    if fs == [] || fs[0].path == path then 0 else 1 + FileIndex(fs[1..], path)
  }

  function PutUri(us: seq<Uri>, u: Uri): seq<Uri> {
    var j := UriIndex(us, u.uri);
    if !NamedUri(u) then us
    else if j == |us| then us + [u]
    else us[j := us[j].(status := FillBlank(us[j].status, u.status))]
  }

  function PutUris(us: seq<Uri>, more: seq<Uri>): seq<Uri> {
    if more == [] then us else PutUri(PutUris(us, more[..|more| - 1]), more[|more| - 1])
  }

  function PutFile(fs: seq<File>, f: File): seq<File> {
    var i := FileIndex(fs, f.path);
    if !NamedFile(f) then fs
    else if i == |fs| then fs + [File(f.path, PutUris([], f.uris))]
    else fs[i := fs[i].(uris := PutUris(fs[i].uris, f.uris))]
  }

  function PutFiles(fs: seq<File>, more: seq<File>): seq<File> {
    if more == [] then fs else PutFile(PutFiles(fs, more[..|more| - 1]), more[|more| - 1])
  }

  /** mergeTaskFiles. */
  function MergeFiles(dst: seq<File>, src: seq<File>): seq<File> { PutFiles(CleanFiles(dst), src) }

  // ---- everything left is named -----------------------------------------------------------------

  predicate AllNamedUris(us: seq<Uri>) { forall j :: 0 <= j < |us| ==> NamedUri(us[j]) }

  predicate AllNamed(fs: seq<File>) { forall i :: 0 <= i < |fs| ==> NamedFile(fs[i]) && AllNamedUris(fs[i].uris) }

  lemma {:induction false} CleanUrisNamed(us: seq<Uri>)
    ensures AllNamedUris(CleanUris(us))
    ensures AllNamedUris(us) ==> CleanUris(us) == us
  {
    if us != [] { CleanUrisNamed(us[1..]); }
  }

  lemma {:induction false} CleanFilesNamed(fs: seq<File>)
    ensures AllNamed(CleanFiles(fs))
    ensures AllNamed(fs) ==> CleanFiles(fs) == fs
  {
    if fs != [] {
      CleanFilesNamed(fs[1..]);
      CleanUrisNamed(fs[0].uris);
    }
  }

  lemma {:induction false} PutUrisNamed(us: seq<Uri>, more: seq<Uri>)
    requires AllNamedUris(us)
    ensures AllNamedUris(PutUris(us, more))
  {
    if more != [] { PutUrisNamed(us, more[..|more| - 1]); }
  }

  lemma {:induction false} PutFilesNamed(fs: seq<File>, more: seq<File>)
    requires AllNamed(fs)
    ensures AllNamed(PutFiles(fs, more))
  {
    if more != [] {
      var n := |more| - 1;
      PutFilesNamed(fs, more[..n]);
      var before := PutFiles(fs, more[..n]);
      var i := FileIndex(before, more[n].path);
      PutUrisNamed(if i < |before| then before[i].uris else [], more[n].uris);
    }
  }

  lemma MergedFilesAreNamed(dst: seq<File>, src: seq<File>)
    ensures AllNamed(MergeFiles(dst, src))
  {
    CleanFilesNamed(dst);
    PutFilesNamed(CleanFiles(dst), src);
  }

  // ---- merging the same rows again changes nothing ----------------------------------------------

  /** `u` is already there, with nothing left to fill in. */
  predicate HasUri(us: seq<Uri>, u: Uri) {
    NamedUri(u) ==>
      var j := UriIndex(us, u.uri); j < |us| && (NonBlank(us[j].status) || !NonBlank(u.status))
  }

  predicate HasUris(us: seq<Uri>, more: seq<Uri>) { forall k :: 0 <= k < |more| ==> HasUri(us, more[k]) }

  predicate HasFile(fs: seq<File>, f: File) {
    NamedFile(f) ==> var i := FileIndex(fs, f.path); i < |fs| && HasUris(fs[i].uris, f.uris)
  }

  predicate HasFiles(fs: seq<File>, more: seq<File>) { forall k :: 0 <= k < |more| ==> HasFile(fs, more[k]) }

  lemma {:induction false} UriIndexAppend(us: seq<Uri>, u: Uri, uri: string)
    ensures UriIndex(us + [u], uri) == if UriIndex(us, uri) < |us| then UriIndex(us, uri)
                                       else if u.uri == uri then |us| else |us| + 1
  {
    if us != [] {
      assert (us + [u])[1..] == us[1..] + [u];
      UriIndexAppend(us[1..], u, uri);
    }
  }

  lemma {:induction false} UriIndexUpdate(us: seq<Uri>, j: nat, status: string, uri: string)
    requires j < |us|
    ensures UriIndex(us[j := us[j].(status := status)], uri) == UriIndex(us, uri)
  {
    var next := us[j := us[j].(status := status)];
    if us != [] && us[0].uri != uri {
      if j == 0 {
        assert next[1..] == us[1..];
      } else {
        assert next[1..] == us[1..][j - 1 := us[1..][j - 1].(status := status)];
        UriIndexUpdate(us[1..], j - 1, status, uri);
      }
    }
  }

  lemma PutUriKeepsAndAdds(us: seq<Uri>, u: Uri, other: Uri)
    ensures HasUri(PutUri(us, u), u)
    ensures HasUri(us, other) ==> HasUri(PutUri(us, u), other)
    ensures HasUri(us, u) ==> PutUri(us, u) == us
  {
    if NamedUri(u) {
      var j := UriIndex(us, u.uri);
      if j == |us| {
        UriIndexAppend(us, u, u.uri);
        UriIndexAppend(us, u, other.uri);
      } else {
        UriIndexUpdate(us, j, FillBlank(us[j].status, u.status), u.uri);
        UriIndexUpdate(us, j, FillBlank(us[j].status, u.status), other.uri);
      }
    }
  }

  lemma {:induction false} PutUrisKeepsAndAdds(us: seq<Uri>, more: seq<Uri>, other: Uri)
    ensures HasUris(PutUris(us, more), more)
    ensures HasUri(us, other) ==> HasUri(PutUris(us, more), other)
    ensures HasUris(us, more) ==> PutUris(us, more) == us
  {
    if more != [] {
      var n := |more| - 1;
      var before := PutUris(us, more[..n]);
      PutUrisKeepsAndAdds(us, more[..n], other);
      PutUriKeepsAndAdds(before, more[n], other);
      forall k | 0 <= k < |more| ensures HasUri(PutUris(us, more), more[k]) {
        if k < n { assert more[..n][k] == more[k]; }
        PutUriKeepsAndAdds(before, more[n], more[k]);
      }
      if HasUris(us, more) {
        assert HasUris(us, more[..n]) && HasUri(us, more[n]);
      }
    }
  }

  lemma {:induction false} FileIndexAppend(fs: seq<File>, f: File, path: string)
    ensures FileIndex(fs + [f], path) == if FileIndex(fs, path) < |fs| then FileIndex(fs, path)
                                         else if f.path == path then |fs| else |fs| + 1
  {
    if fs != [] {
      assert (fs + [f])[1..] == fs[1..] + [f];
      FileIndexAppend(fs[1..], f, path);
    }
  }

  lemma {:induction false} FileIndexUpdate(fs: seq<File>, i: nat, uris: seq<Uri>, path: string)
    requires i < |fs|
    ensures FileIndex(fs[i := fs[i].(uris := uris)], path) == FileIndex(fs, path)
  {
    var next := fs[i := fs[i].(uris := uris)];
    if fs != [] && fs[0].path != path {
      if i == 0 {
        assert next[1..] == fs[1..];
      } else {
        assert next[1..] == fs[1..][i - 1 := fs[1..][i - 1].(uris := uris)];
        FileIndexUpdate(fs[1..], i - 1, uris, path);
      }
    }
  }

  lemma PutUrisKeepAll(us: seq<Uri>, more: seq<Uri>, others: seq<Uri>)
    requires HasUris(us, others)
    ensures HasUris(PutUris(us, more), others)
  {
    forall k | 0 <= k < |others| ensures HasUri(PutUris(us, more), others[k]) {
      PutUrisKeepsAndAdds(us, more, others[k]);
    }
  }

  lemma PutFileAdds(fs: seq<File>, f: File)
    ensures HasFile(PutFile(fs, f), f)
    ensures HasFile(fs, f) ==> PutFile(fs, f) == fs
  {
    if NamedFile(f) {
      var i := FileIndex(fs, f.path);
      var us := if i < |fs| then fs[i].uris else [];
      PutUrisKeepsAndAdds(us, f.uris, Uri("", ""));
      if i == |fs| {
        FileIndexAppend(fs, File(f.path, PutUris([], f.uris)), f.path);
      } else {
        FileIndexUpdate(fs, i, PutUris(us, f.uris), f.path);
      }
    }
  }

  lemma PutFileKeeps(fs: seq<File>, f: File, other: File)
    requires HasFile(fs, other)
    ensures HasFile(PutFile(fs, f), other)
  {
    if NamedFile(f) && NamedFile(other) {
      var i := FileIndex(fs, f.path);
      if i == |fs| {
        FileIndexAppend(fs, File(f.path, PutUris([], f.uris)), other.path);
      } else {
        FileIndexUpdate(fs, i, PutUris(fs[i].uris, f.uris), other.path);
        if FileIndex(fs, other.path) == i { PutUrisKeepAll(fs[i].uris, f.uris, other.uris); }
      }
    }
  }

  lemma {:induction false} PutFilesAdds(fs: seq<File>, more: seq<File>)
    ensures HasFiles(PutFiles(fs, more), more)
    ensures HasFiles(fs, more) ==> PutFiles(fs, more) == fs
  {
    if more != [] {
      var n := |more| - 1;
      var before := PutFiles(fs, more[..n]);
      PutFilesAdds(fs, more[..n]);
      PutFileAdds(before, more[n]);
      forall k | 0 <= k < |more| ensures HasFile(PutFiles(fs, more), more[k]) {
        if k < n {
          assert more[..n][k] == more[k];
          PutFileKeeps(before, more[n], more[k]);
        }
      }
      if HasFiles(fs, more) {
        assert HasFiles(fs, more[..n]) && HasFile(fs, more[n]);
      }
    }
  }

  /** A tick that brings the same files again changes nothing. */
  lemma MergeIsIdempotent(a: seq<File>, b: seq<File>)
    ensures MergeFiles(MergeFiles(a, b), b) == MergeFiles(a, b)
  {
    var m := MergeFiles(a, b);
    MergedFilesAreNamed(a, b);
    CleanFilesNamed(m);
    PutFilesAdds(CleanFiles(a), b);
    PutFilesAdds(m, b);
  }

  // ---- no path and no uri is lost or invented ------------------------------------------------------

  function Addresses(us: seq<Uri>): set<string> { set j | 0 <= j < |us| && NamedUri(us[j]) :: us[j].uri }

  function Paths(fs: seq<File>): set<string> { set i | 0 <= i < |fs| && NamedFile(fs[i]) :: fs[i].path }

  /** The addresses known for one path, over every entry with that path. */
  function Sources(fs: seq<File>, path: string): set<string> {
    set i, uri | 0 <= i < |fs| && fs[i].path == path && uri in Addresses(fs[i].uris) :: uri
  }

  lemma {:induction false} CleanAddresses(us: seq<Uri>)
    ensures Addresses(CleanUris(us)) == Addresses(us)
  {
    if us != [] {
      CleanAddresses(us[1..]);
      AddressesSplit([us[0]], us[1..]);
      AddressesSplit(if NamedUri(us[0]) then [us[0]] else [], CleanUris(us[1..]));
      assert us == [us[0]] + us[1..];
    }
  }

  lemma AddressesSplit(a: seq<Uri>, b: seq<Uri>)
    ensures Addresses(a + b) == Addresses(a) + Addresses(b)
  {
    forall uri | uri in Addresses(a) + Addresses(b)
      ensures uri in Addresses(a + b)
    {
      if uri in Addresses(a) {
        var j :| 0 <= j < |a| && NamedUri(a[j]) && a[j].uri == uri;
        assert (a + b)[j] == a[j];
      } else {
        var j :| 0 <= j < |b| && NamedUri(b[j]) && b[j].uri == uri;
        assert (a + b)[|a| + j] == b[j];
      }
    }
  }

  lemma PathsSplit(a: seq<File>, b: seq<File>)
    ensures Paths(a + b) == Paths(a) + Paths(b)
  {
    forall p | p in Paths(a) + Paths(b)
      ensures p in Paths(a + b)
    {
      if p in Paths(a) {
        var j :| 0 <= j < |a| && NamedFile(a[j]) && a[j].path == p;
        assert (a + b)[j] == a[j];
      } else {
        var j :| 0 <= j < |b| && NamedFile(b[j]) && b[j].path == p;
        assert (a + b)[|a| + j] == b[j];
      }
    }
  }

  lemma SourcesSplit(a: seq<File>, b: seq<File>, path: string)
    ensures Sources(a + b, path) == Sources(a, path) + Sources(b, path)
  {
    forall uri | uri in Sources(a, path) + Sources(b, path)
      ensures uri in Sources(a + b, path)
    {
      if uri in Sources(a, path) {
        var j :| 0 <= j < |a| && a[j].path == path && uri in Addresses(a[j].uris);
        assert (a + b)[j] == a[j];
      } else {
        var j :| 0 <= j < |b| && b[j].path == path && uri in Addresses(b[j].uris);
        assert (a + b)[|a| + j] == b[j];
      }
    }
  }

  lemma SourcesOfOne(f: File, path: string)
    ensures Sources([f], path) == if f.path == path then Addresses(f.uris) else {}
  {
    if f.path == path {
      forall uri | uri in Addresses(f.uris) ensures uri in Sources([f], path) {
        assert [f][0].path == path;
      }
    }
  }

  lemma {:induction false} CleanKeeps(fs: seq<File>, path: string)
    requires NonBlank(path)
    ensures Paths(CleanFiles(fs)) == Paths(fs)
    ensures Sources(CleanFiles(fs), path) == Sources(fs, path)
  {
    if fs != [] {
      CleanKeeps(fs[1..], path);
      var head := if NamedFile(fs[0]) then [File(fs[0].path, CleanUris(fs[0].uris))] else [];
      assert fs == [fs[0]] + fs[1..];
      PathsSplit([fs[0]], fs[1..]);
      PathsSplit(head, CleanFiles(fs[1..]));
      SourcesSplit([fs[0]], fs[1..], path);
      SourcesSplit(head, CleanFiles(fs[1..]), path);
      CleanAddresses(fs[0].uris);
      SourcesOfOne(fs[0], path);
      if NamedFile(fs[0]) {
        SourcesOfOne(head[0], path);
        OnePath(head[0]);
      }
      OnePath(fs[0]);
    }
  }

  lemma OneAddress(u: Uri)
    ensures Addresses([u]) == if NamedUri(u) then {u.uri} else {}
  {
    if NamedUri(u) {
      var us := [u];
      assert 0 <= 0 < |us| && NamedUri(us[0]) && us[0].uri == u.uri;
    }
  }

  lemma PutUriAddresses(us: seq<Uri>, u: Uri)
    ensures Addresses(PutUri(us, u)) == Addresses(us) + (if NamedUri(u) then {u.uri} else {})
  {
    if NamedUri(u) {
      var j := UriIndex(us, u.uri);
      if j == |us| {
        AddressesSplit(us, [u]);
        OneAddress(u);
      } else {
        var next := PutUri(us, u);
        assert us[j].uri in Addresses(us);
        forall uri | uri in Addresses(us) ensures uri in Addresses(next) {
          var k :| 0 <= k < |us| && NamedUri(us[k]) && us[k].uri == uri;
          assert next[k].uri == uri;
        }
      }
    }
  }

  lemma {:induction false} PutUrisAddresses(us: seq<Uri>, more: seq<Uri>)
    ensures Addresses(PutUris(us, more)) == Addresses(us) + Addresses(more)
  {
    if more != [] {
      var n := |more| - 1;
      PutUrisAddresses(us, more[..n]);
      PutUriAddresses(PutUris(us, more[..n]), more[n]);
      assert more == more[..n] + [more[n]];
      AddressesSplit(more[..n], [more[n]]);
      OneAddress(more[n]);
    }
  }

  lemma ReplaceFile(fs: seq<File>, i: nat, uris: seq<Uri>, path: string)
    requires i < |fs|
    ensures var next := fs[i := fs[i].(uris := uris)];
            && Paths(next) == Paths(fs)
            && (Addresses(fs[i].uris) <= Addresses(uris) ==>
                  Sources(next, path) == Sources(fs, path) + (if fs[i].path == path then Addresses(uris) else {}))
  {
    var file := fs[i].(uris := uris);
    var next := fs[i := file];
    assert fs == fs[..i] + ([fs[i]] + fs[i + 1..]);
    assert next == fs[..i] + ([file] + fs[i + 1..]);
    PathsSplit(fs[..i], [fs[i]] + fs[i + 1..]);
    PathsSplit([fs[i]], fs[i + 1..]);
    PathsSplit(fs[..i], [file] + fs[i + 1..]);
    PathsSplit([file], fs[i + 1..]);
    assert Paths([file]) == Paths([fs[i]]) by { OnePath(file); OnePath(fs[i]); }
    SourcesSplit(fs[..i], [fs[i]] + fs[i + 1..], path);
    SourcesSplit([fs[i]], fs[i + 1..], path);
    SourcesSplit(fs[..i], [file] + fs[i + 1..], path);
    SourcesSplit([file], fs[i + 1..], path);
    SourcesOfOne(fs[i], path);
    SourcesOfOne(file, path);
  }

  lemma OnePath(f: File)
    ensures Paths([f]) == if NamedFile(f) then {f.path} else {}
  {
    if NamedFile(f) {
      var fs := [f];
      assert 0 <= 0 < |fs| && NamedFile(fs[0]) && fs[0].path == f.path;
    }
  }

  lemma PutFileUnions(fs: seq<File>, f: File, path: string)
    requires NonBlank(path)
    ensures Paths(PutFile(fs, f)) == Paths(fs) + Paths([f])
    ensures Sources(PutFile(fs, f), path) == Sources(fs, path) + Sources([f], path)
  {
    OnePath(f);
    SourcesOfOne(f, path);
    if NamedFile(f) {
      var i := FileIndex(fs, f.path);
      if i == |fs| {
        var file := File(f.path, PutUris([], f.uris));
        PutUrisAddresses([], f.uris);
        PathsSplit(fs, [file]);
        SourcesSplit(fs, [file], path);
        OnePath(file);
        SourcesOfOne(file, path);
      } else {
        PutUrisAddresses(fs[i].uris, f.uris);
        ReplaceFile(fs, i, PutUris(fs[i].uris, f.uris), path);
        assert fs[i].path in Paths(fs);
        forall uri | fs[i].path == path && uri in Addresses(fs[i].uris) ensures uri in Sources(fs, path) { }
      }
    }
  }

  lemma {:induction false} PutFilesUnions(fs: seq<File>, more: seq<File>, path: string)
    requires NonBlank(path)
    ensures Paths(PutFiles(fs, more)) == Paths(fs) + Paths(more)
    ensures Sources(PutFiles(fs, more), path) == Sources(fs, path) + Sources(more, path)
  {
    if more != [] {
      var n := |more| - 1;
      PutFilesUnions(fs, more[..n], path);
      PutFileUnions(PutFiles(fs, more[..n]), more[n], path);
      assert more == more[..n] + [more[n]];
      PathsSplit(more[..n], [more[n]]);
      SourcesSplit(more[..n], [more[n]], path);
    }
  }

  /** The merged list knows exactly the usable paths of both, and for each the addresses of both. */
  lemma MergeUnions(dst: seq<File>, src: seq<File>, path: string)
    ensures Paths(MergeFiles(dst, src)) == Paths(dst) + Paths(src)
    ensures NonBlank(path) ==> Sources(MergeFiles(dst, src), path) == Sources(dst, path) + Sources(src, path)
  {
    assert !IsSpace("x"[0]);
    CleanKeeps(dst, "x");
    PutFilesUnions(CleanFiles(dst), src, "x");
    if NonBlank(path) {
      CleanKeeps(dst, path);
      PutFilesUnions(CleanFiles(dst), src, path);
    }
  }

  // ---- the loops -------------------------------------------------------------------------------------

  /** The inner loop: one file's addresses into the entry for its path. */
  method MergeUris(dst: seq<Uri>, src: seq<Uri>) returns (uris: seq<Uri>)
    ensures uris == PutUris(dst, src)
  {
    uris := dst;
    for m := 0 to |src|
      invariant uris == PutUris(dst, src[..m])
    {
      var uri := src[m];
      assert src[..m + 1][..m] == src[..m];
      if !NamedUri(uri) { continue; }
      var j := UriIndex(uris, uri.uri);
      if j == |uris| {
        uris := uris + [uri];
      } else {
        uris := uris[j := uris[j].(status := FillBlank(uris[j].status, uri.status))];
      }
    }
    assert src[..|src|] == src;
  }

  /**
   * mergeTaskFiles as written; its later deletions of blank entries find none, since
   * the list was cleaned first and only named entries are added.
   */
  method MergeTaskFiles(dst: seq<File>, src: seq<File>) returns (files: seq<File>)
    ensures files == MergeFiles(dst, src)
  {
    files := CleanFiles(dst);
    for k := 0 to |src|
      invariant files == PutFiles(CleanFiles(dst), src[..k])
    {
      var file := src[k];
      assert src[..k + 1][..k] == src[..k];
      if !NamedFile(file) { continue; }
      var i := FileIndex(files, file.path);
      ghost var was := files;
      if i == |files| { files := files + [File(file.path, [])]; }
      var uris := MergeUris(files[i].uris, file.uris);
      files := files[i := files[i].(uris := uris)];
      assert files == PutFile(was, file);
    }
    assert src[..|src|] == src;
  }

  // ---- whole rows --------------------------------------------------------------------------------------

  /** The part of a row that outlives a tick. */
  datatype Retained = Retained(title: string, dir: string, files: seq<File>, group: Option<DownloadGroup>)

  function RetainedOf(t: Task): Retained { Retained(t.title, t.dir, t.files, t.group) }

  function WithRetained(t: Task, r: Retained): Task {
    t.(title := r.title, dir := r.dir, files := r.files, group := r.group)
  }

  function FillGroup(dst: DownloadGroup, src: DownloadGroup): DownloadGroup {
    if dst.id != src.id then dst
    else DownloadGroup(dst.id, FillBlank(dst.kind, src.kind), FillBlank(dst.name, src.name),
                       FillBlank(dst.nameStatus, src.nameStatus), FillBlank(dst.folderName, src.folderName),
                       FillBlank(dst.dir, src.dir),
                       if dst.itemCount == 0 then src.itemCount else dst.itemCount,
                       if dst.createdAt == 0 then src.createdAt else dst.createdAt)
  }

  predicate UsableGroup(g: Option<DownloadGroup>) { g.Some? && NonBlank(g.value.id) }

  function FillGroups(dst: Option<DownloadGroup>, src: Option<DownloadGroup>): Option<DownloadGroup> {
    if !UsableGroup(src) then dst
    else if !UsableGroup(dst) then src
    else Some(FillGroup(dst.value, src.value))
  }

  /** fillTaskMetadata on the retained part. */
  function Fill(dst: Retained, src: Retained): Retained {
    Retained(FillBlank(dst.title, src.title), FillBlank(dst.dir, src.dir),
             MergeFiles(dst.files, src.files), FillGroups(dst.group, src.group))
  }

  function FillRow(dst: Task, src: Task): Task { WithRetained(dst, Fill(RetainedOf(dst), RetainedOf(src))) }

  lemma FillGroupAgain(dst: DownloadGroup, src: DownloadGroup)
    ensures FillGroup(FillGroup(dst, src), src) == FillGroup(dst, src)
  {
  }

  /** Filling in the same sibling twice is filling it in once. */
  lemma FillIsIdempotent(dst: Retained, src: Retained)
    ensures Fill(Fill(dst, src), src) == Fill(dst, src)
  {
    MergeIsIdempotent(dst.files, src.files);
    if UsableGroup(src.group) && UsableGroup(dst.group) {
      FillGroupAgain(dst.group.value, src.group.value);
    }
    if UsableGroup(src.group) && !UsableGroup(dst.group) {
      assert FillGroup(src.group.value, src.group.value) == src.group.value;
    }
  }
}
