/** Turning the entries of one directory read into `FileInfo` records, the
    loop that both handlers carry (pkg/tool/macos/macos.go:33-55 and
    :109-131). */
module Listing {
  import opened Wrappers
  import opened FilePathExt

  /** Go's `int64`, the type of `FileInfo.Size()`. */
  newtype int64 = x: int | -0x8000_0000_0000_0000 <= x < 0x8000_0000_0000_0000

  /** One `os.DirEntry` as the read returned it: its name, its directory
      flag, and the outcome of its `Info()` call (the size on success, the
      error text on failure). */
  datatype Entry = Entry(name: string, isDir: bool, info: Result<int64, string>)

  /** The record emitted for one entry, fields in their JSON order. */
  datatype FileInfo = FileInfo(name: string, path: string, fileType: string, size: int64, ext: string)

  const DirectoryType: string := "directory"
  const FileType: string := "file"

  /** The record for an entry whose `Info()` succeeded; `join` stands for
      `filepath.Join`, which is left uninterpreted. */
  function Describe(parent: string, e: Entry, join: (string, string) -> string): (d: FileInfo)
    requires e.info.Success?
    ensures DescribesEntry(parent, e, d, join)
  {
    FileInfo(e.name, join(parent, e.name), if e.isDir then DirectoryType else FileType, e.info.value, Ext(e.name))
  }

  /** The listing of `entries` read from directory `parent`: entries whose
      `Info()` failed are dropped, the others described in order. */
  function ListEntries(parent: string, entries: seq<Entry>, join: (string, string) -> string): (r: seq<FileInfo>)
    ensures |r| <= |entries|
    ensures |r| == |entries| <==> forall i :: 0 <= i < |entries| ==> entries[i].info.Success?
    decreases |entries|
  {
    if entries == [] then
      []
    else
      var rest := ListEntries(parent, entries[1..], join);
      if entries[0].info.Failure? then rest else [Describe(parent, entries[0], join)] + rest
  }

  /** The loop as written: walk the entries, skip the ones whose `Info()`
      fails, append a record for each of the others. */
  method CollectFileInfos(path: string, entries: seq<Entry>, join: (string, string) -> string)
    returns (fileInfos: seq<FileInfo>)
    ensures fileInfos == ListEntries(path, entries, join)
  {
    fileInfos := [];
    for i := 0 to |entries|
      invariant fileInfos == ListEntries(path, entries[..i], join)
    {
      var entry := entries[i];
      ListEntriesStep(path, entries, i, join);
      if entry.info.Failure? {
        continue;
      }
      var fileType := FileType;
      if entry.isDir {
        fileType := DirectoryType;
      }
      var ext := Ext(entry.name);
      var fullPath := join(path, entry.name);
      fileInfos := fileInfos + [FileInfo(entry.name, fullPath, fileType, entry.info.value, ext)];
    }
    assert entries[..|entries|] == entries;
  }

  /** Listing is entry-wise: the listing of two consecutive runs of entries
      is the concatenation of their listings. */
  lemma {:induction false} ListEntriesConcat(parent: string, a: seq<Entry>, b: seq<Entry>, join: (string, string) -> string)
    ensures ListEntries(parent, a + b, join) == ListEntries(parent, a, join) + ListEntries(parent, b, join)
    decreases |a|
  {
    if a == [] {
      assert a + b == b;
    } else {
      assert (a + b)[1..] == a[1..] + b;
      ListEntriesConcat(parent, a[1..], b, join);
    }
  }

  /** One more entry extends the listing by at most that entry's record. */
  lemma ListEntriesStep(parent: string, entries: seq<Entry>, i: nat, join: (string, string) -> string)
    requires i < |entries|
    ensures entries[i].info.Failure? ==>
      ListEntries(parent, entries[..i + 1], join) == ListEntries(parent, entries[..i], join)
    ensures entries[i].info.Success? ==>
      ListEntries(parent, entries[..i + 1], join) == ListEntries(parent, entries[..i], join) + [Describe(parent, entries[i], join)]
  {
    assert entries[..i + 1] == entries[..i] + [entries[i]];
    ListEntriesConcat(parent, entries[..i], [entries[i]], join);
  }

  /** The positions of the entries whose `Info()` succeeded, in increasing
      order: the specification of the listing. */
  function OkIndices(entries: seq<Entry>): (idx: seq<nat>)
    ensures forall j :: 0 <= j < |idx| ==> idx[j] < |entries| && entries[idx[j]].info.Success?
    ensures forall j, k :: 0 <= j < k < |idx| ==> idx[j] < idx[k]
    ensures forall i :: 0 <= i < |entries| && entries[i].info.Success? ==> i in idx
    decreases |entries|
  {
    if entries == [] then
      []
    else
      var last := |entries| - 1;
      var pre := OkIndices(entries[..last]);
      if entries[last].info.Success? then pre + [last] else pre
  }

  /** `d` is the record the Go handler builds for `e`: same name and size,
      type "directory" exactly for directories and "file" otherwise, the
      extension a suffix of the name, the path the joined parent and name. */
  predicate DescribesEntry(parent: string, e: Entry, d: FileInfo, join: (string, string) -> string) {
    && e.info.Success?
    && d.name == e.name
    && d.size == e.info.value
    && (d.fileType == DirectoryType <==> e.isDir)
    && (d.fileType == FileType <==> !e.isDir)
    && d.ext == Ext(e.name)
    && IsSuffix(d.ext, d.name)
    && d.path == join(parent, e.name)
  }

  /** The listing is exactly the subsequence of entries whose `Info()`
      succeeded, in input order, each record describing its entry. */
  lemma {:induction false} ListEntriesSelectsOkEntries(parent: string, entries: seq<Entry>, join: (string, string) -> string)
    ensures |ListEntries(parent, entries, join)| == |OkIndices(entries)|
    ensures forall j :: 0 <= j < |OkIndices(entries)| ==>
      ListEntries(parent, entries, join)[j] == Describe(parent, entries[OkIndices(entries)[j]], join)
    ensures forall j :: 0 <= j < |OkIndices(entries)| ==>
      DescribesEntry(parent, entries[OkIndices(entries)[j]], ListEntries(parent, entries, join)[j], join)
    decreases |entries|
  {
    if entries != [] {
      var last := |entries| - 1;
      var pre := entries[..last];
      assert entries == pre + [entries[last]];
      ListEntriesConcat(parent, pre, [entries[last]], join);
      ListEntriesSelectsOkEntries(parent, pre, join);
      var preIdx := OkIndices(pre);
      forall j | 0 <= j < |preIdx|
        ensures entries[preIdx[j]] == pre[preIdx[j]]
      {
      }
    }
  }

  /** When every `Info()` succeeds, the listing describes the entries one
      for one, in the same positions. */
  lemma AllInfoOkListsEveryEntry(parent: string, entries: seq<Entry>, join: (string, string) -> string)
    requires forall i :: 0 <= i < |entries| ==> entries[i].info.Success?
    ensures |ListEntries(parent, entries, join)| == |entries|
    ensures forall i :: 0 <= i < |entries| ==> ListEntries(parent, entries, join)[i] == Describe(parent, entries[i], join)
  {
  }

  /** With no failing entry the selected positions are 0, 1, ..., n-1. */
  lemma {:induction false} OkIndicesAreAllWhenAllOk(entries: seq<Entry>)
    requires forall i :: 0 <= i < |entries| ==> entries[i].info.Success?
    ensures |OkIndices(entries)| == |entries|
    ensures forall i :: 0 <= i < |entries| ==> OkIndices(entries)[i] == i
    decreases |entries|
  {
    if entries != [] {
      OkIndicesAreAllWhenAllOk(entries[..|entries| - 1]);
    }
  }
}
