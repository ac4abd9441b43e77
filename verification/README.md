# macOS directory listing over MCP — Dafny model

The `ptolemaios` macOS tool exposes one capability to an MCP client: list a
directory as JSON records `{name, path, type, size, ext}`. It offers it twice,
as the `list_macos_dir` tool (`ListDirHandler`) and as the resource
`macos://dir/{path}` (`handleDirResource`). This project models the logic of
`pkg/tool/macos/macos.go` as pure Dafny functions and proves what it promises.

Modules:

- `Wrappers` (`wrappers.dfy`): `Result`, the Go `(value, error)` pair.
- `ResourceUri` (`uri.dfy`): `extractPathFromURI` and the `macos://dir/` prefix.
- `FilePathExt` (`ext.dfy`): the extension rule the listing applies to every
  entry name (Go's `filepath.Ext`, Unix separator `/`).
- `Listing` (`listing.dfy`): directory entries, `FileInfo` records, and the
  filter-and-describe loop. The source has two textually identical copies of
  this loop, at lines 33-55 and 109-131. Both handlers here use one function,
  `ListEntries`. `CollectFileInfos` is the loop written statement by
  statement and is proved equal to it.
- `Handlers` (`handlers.dfy`): the two adapters and the shape of their
  errors. The tool returns every failure as a soft error result with a nil Go
  error. The resource returns a non-nil error.

The directory read, `filepath.Join` and `json.MarshalIndent` are parameters
bundled in `Handlers.Host`. Each directory entry carries the outcome of its
own `Info()` call as data.

Two facts about the code shape what the model claims:

- Each record's `path` is `filepath.Join(parent, name)`, which cleans its
  result. The model keeps `join` uninterpreted and claims nothing about its
  output beyond "`join(parent, name)`".
- An empty listing is a nil slice, and `json.MarshalIndent` writes a nil
  slice as `null`, not `[]`. The model hands the empty sequence to the
  `marshal` parameter and claims nothing about the text it produces.

## Model

| member | source | states |
|---|---|---|
| `ResourceUri.ExtractPathFromUri` | pkg/tool/macos/macos.go:147-154 | The result is non-empty exactly when the URI is strictly longer than `macos://dir/` and starts with it. A non-empty result is the remainder: `Prefix + path == uri`. An URI equal to the prefix, shorter than it, or not starting with it gives "". |
| `ResourceUri.ExtractOfPrefixed` | pkg/tool/macos/macos.go:149-151 | Round trip: for any non-empty path, extracting from `Prefix + path` gives back that path verbatim. |
| `ResourceUri.ExtractExamples` | pkg/tool/macos/macos.go:147-154 | `macos://dir//etc` gives `/etc`, keeping the leading slash. `macos://dir/` and `file://dir/etc` give "". |
| `FilePathExt.ExtBefore` | pkg/tool/macos/macos.go:45 | The backward scan stops at a separator or at the first `.` it meets. A non-empty result starts with `.`, is a suffix of the path, and has no `.` or separator after its first character. An empty result means every `.` in the scanned part has a separator after it. |
| `FilePathExt.Ext` | pkg/tool/macos/macos.go:45 | The extension is a suffix of the name. It is empty or starts with `.`, and contains no later `.` or separator. It is empty only when every `.` is followed by a separator. |
| `FilePathExt.ExtOfBareName` | pkg/tool/macos/macos.go:45 | For a name with no separator, the extension is "" exactly when the name has no `.`. Otherwise it is the suffix that starts at the name's last `.`. |
| `FilePathExt.ExtFromLastDot` | pkg/tool/macos/macos.go:121 | Converse: if `k` is the last `.` of a separator-free name, the extension is `name[k..]`. |
| `FilePathExt.ExtExamples` | pkg/tool/macos/macos.go:121 | `archive.tar.gz` gives `.gz`, `README` gives "", `.bashrc` gives `.bashrc`, and `dir.d/file` gives "". |
| `Listing.Describe` | pkg/tool/macos/macos.go:40-53 | The record built for an entry whose `Info()` succeeded (`DescribesEntry`): the entry's name and size, type `directory` exactly when `IsDir()` and `file` otherwise, the name's extension (a suffix of the name), and path `join(parent, name)`. `ListEntriesSelectsOkEntries` states that every listed record is this one for its entry. |
| `Listing.ListEntries` | pkg/tool/macos/macos.go:33-55 | The listing has at most one record per entry. It has exactly one per entry if and only if every entry's `Info()` succeeded. |
| `Listing.CollectFileInfos` | pkg/tool/macos/macos.go:109-131 | The for-loop, with its `continue` on a failed `Info()` and its append, computes exactly `ListEntries`. |
| `Listing.ListEntriesStep` | pkg/tool/macos/macos.go:34-54 | One more entry adds nothing when its `Info()` fails. Otherwise it appends exactly that entry's record. |
| `Listing.ListEntriesConcat` | pkg/tool/macos/macos.go:34-55 | Listing works entry by entry: the listing of `a + b` is the listing of `a` followed by the listing of `b`. |
| `Listing.OkIndices` | pkg/tool/macos/macos.go:110-114 | The positions of the entries whose `Info()` succeeded: strictly increasing, each such an entry, and every such entry included. |
| `Listing.ListEntriesSelectsOkEntries` | pkg/tool/macos/macos.go:34-54 | The listing is the subsequence of entries whose `Info()` succeeded, in input order: the j-th record is built from the entry at the j-th such position. That record has the entry's name and `Info()` size. Its type is `directory` exactly when `IsDir()`, and `file` otherwise. Its extension is the name's extension, and so a suffix of the name. Its path is `join(parent, name)`. |
| `Listing.OkIndicesAreAllWhenAllOk` | pkg/tool/macos/macos.go:110-114 | When no `Info()` fails, the selected positions are 0 to n-1. |
| `Listing.AllInfoOkListsEveryEntry` | pkg/tool/macos/macos.go:110-130 | When no `Info()` fails, the listing has one record per entry, at the entry's position. |
| `Handlers.ListDirHandler` | pkg/tool/macos/macos.go:14-63 | The Go error is always nil. A missing `path` argument gives a soft error carrying the lookup's message. A failed read gives a soft error `failed to read directory: <cause>`. A failed marshalling gives a soft error `failed to marshal JSON: <cause>`. A text result is produced if and only if the argument, the read and the marshalling all succeed, and its text is the marshalled listing. |
| `Handlers.HandleDirResource` | pkg/tool/macos/macos.go:87-145 | An empty extracted path gives the hard error `invalid URI format: <uri>` for every host, so no read result can influence it. A failed read gives the hard error `failed to read directory: <cause>`, and a failed marshalling the hard error `failed to marshal JSON: <cause>`. On success there is exactly one content record, carrying the request URI, `application/json`, and the marshalled listing of the extracted path. |
| `Handlers.HandlersAgree` | pkg/tool/macos/macos.go:14-145 | For the same non-empty path, the tool gives text exactly when the resource succeeds, with the same text. Every hard error of the resource is the tool's soft error with the same message. |
| `Handlers.ResourceExamples` | pkg/tool/macos/macos.go:90-99 | `macos://dir/` is refused as an invalid URI whatever the host. `macos://dir//etc` reads `/etc` and reports its read failure as a hard error. |

## Left out

- `os.ReadDir` and `DirEntry.Info()`: file-system I/O. The read is the `readDir` parameter of `Host`, and each entry carries its `Info()` outcome as data.
- `filepath.Join`: a library path normaliser. It is the uninterpreted `join` parameter, so no property pins `Path` to a literal `parent + "/" + name`.
- `json.MarshalIndent` and the JSON text, including the `null` produced for an empty listing: library serialisation. It is the `marshal` parameter, and its failure branch (`failed to marshal JSON: `) is modelled.
- `request.RequireString("path")`: the mcp-go argument lookup is foreign code. Its outcome, the path or the lookup's error message, is the handler's `pathArgument` input.
- The mcp-go envelopes (`NewToolResultText`, `NewToolResultError`, `TextResourceContents`): these are the local `ToolResult` and `ResourceContents` datatypes.
- The `context.Context` arguments: neither handler reads them.
- `Init` (pkg/tool/macos/macos.go:65-85) and `cmd/macos/macos.go`: server registration, the HTTP listener on :8080 and the heartbeat are bootstrap and network plumbing.
- Byte strings: Go strings are byte sequences and the model uses `seq<char>`. The prefix `macos://dir/` is ASCII, so length comparison and slicing at the prefix give the same remainder either way.
- Concurrency: each request is independent and stateless, so there is nothing to model.
