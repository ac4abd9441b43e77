/** The two request adapters over the listing: the `list_macos_dir` tool
    (`ListDirHandler`, pkg/tool/macos/macos.go:14-63) and the
    `macos://dir/{path}` resource (`handleDirResource`,
    pkg/tool/macos/macos.go:87-145). */
module Handlers {
  import opened Wrappers
  import opened ResourceUri
  import opened Listing

  /** The collaborators a handler calls but this model does not define:
      `readDir` is `os.ReadDir` (each entry carrying the outcome of its own
      `Info()` call), `join` is `filepath.Join`, and `marshal` is
      `json.MarshalIndent(fileInfos, "", "  ")`. */
  datatype Host = Host(
    readDir: string -> Result<seq<Entry>, string>,
    join: (string, string) -> string,
    marshal: seq<FileInfo> -> Result<string, string>)

  /** A tool call result: the listing text, or an error shown to the
      caller as the call's content (a soft error). */
  datatype ToolResult = ToolText(text: string) | ToolError(message: string)

  /** One `TextResourceContents` record. */
  datatype ResourceContents = TextResourceContents(uri: string, mimeType: string, text: string)

  const JsonMimeType: string := "application/json"
  const ReadFailurePrefix: string := "failed to read directory: "
  const MarshalFailurePrefix: string := "failed to marshal JSON: "
  const InvalidUriPrefix: string := "invalid URI format: "

  /** The tool handler.  `pathArgument` is the outcome of looking up the
      required string argument `path` (its message when absent or not a
      string).  The Go error it returns is always nil, which the `Result`
      wrapper makes explicit: every failure is carried in the tool result. */
  function ListDirHandler(pathArgument: Result<string, string>, host: Host): (r: Result<ToolResult, string>)
    ensures r.Success?
    ensures pathArgument.Failure? ==> r.value == ToolError(pathArgument.error)
    ensures pathArgument.Success? && host.readDir(pathArgument.value).Failure? ==>
      r.value == ToolError(ReadFailurePrefix + host.readDir(pathArgument.value).error)
    ensures
      && pathArgument.Success?
      && host.readDir(pathArgument.value).Success?
      && host.marshal(ListEntries(pathArgument.value, host.readDir(pathArgument.value).value, host.join)).Failure?
      ==> r.value == ToolError(MarshalFailurePrefix +
        host.marshal(ListEntries(pathArgument.value, host.readDir(pathArgument.value).value, host.join)).error)
    ensures r.value.ToolText? <==>
      && pathArgument.Success?
      && host.readDir(pathArgument.value).Success?
      && host.marshal(ListEntries(pathArgument.value, host.readDir(pathArgument.value).value, host.join)).Success?
    ensures r.value.ToolText? ==>
      host.marshal(ListEntries(pathArgument.value, host.readDir(pathArgument.value).value, host.join))
        == Success(r.value.text)
  {
    match pathArgument
    case Failure(message) => Success(ToolError(message))
    case Success(path) =>
      match host.readDir(path)
      case Failure(cause) => Success(ToolError(ReadFailurePrefix + cause))
      case Success(entries) =>
        var fileInfos := ListEntries(path, entries, host.join);
        match host.marshal(fileInfos)
        case Failure(cause) => Success(ToolError(MarshalFailurePrefix + cause))
        case Success(jsonData) => Success(ToolText(jsonData))
  }

  /** The resource handler.  A `Failure` is a non-nil Go error returned
      with no contents (a hard error). */
  function HandleDirResource(uri: string, host: Host): (r: Result<seq<ResourceContents>, string>)
    ensures ExtractPathFromUri(uri) == "" ==> r == Failure(InvalidUriPrefix + uri)
    ensures ExtractPathFromUri(uri) != "" && host.readDir(ExtractPathFromUri(uri)).Failure? ==>
      r == Failure(ReadFailurePrefix + host.readDir(ExtractPathFromUri(uri)).error)
    ensures
      && ExtractPathFromUri(uri) != ""
      && host.readDir(ExtractPathFromUri(uri)).Success?
      && host.marshal(ListEntries(ExtractPathFromUri(uri), host.readDir(ExtractPathFromUri(uri)).value, host.join)).Failure?
      ==> r == Failure(MarshalFailurePrefix +
        host.marshal(ListEntries(ExtractPathFromUri(uri), host.readDir(ExtractPathFromUri(uri)).value, host.join)).error)
    ensures r.Success? <==>
      && ExtractPathFromUri(uri) != ""
      && host.readDir(ExtractPathFromUri(uri)).Success?
      && host.marshal(ListEntries(ExtractPathFromUri(uri), host.readDir(ExtractPathFromUri(uri)).value, host.join)).Success?
    ensures r.Success? ==>
      && |r.value| == 1
      && r.value[0].uri == uri
      && r.value[0].mimeType == JsonMimeType
      && Prefix + ExtractPathFromUri(uri) == uri
      && host.marshal(ListEntries(ExtractPathFromUri(uri), host.readDir(ExtractPathFromUri(uri)).value, host.join))
           == Success(r.value[0].text)
  {
    var path := ExtractPathFromUri(uri);
    if path == "" then
      Failure(InvalidUriPrefix + uri)
    else
      match host.readDir(path)
      case Failure(cause) => Failure(ReadFailurePrefix + cause)
      case Success(entries) =>
        var fileInfos := ListEntries(path, entries, host.join);
        match host.marshal(fileInfos)
        case Failure(cause) => Failure(MarshalFailurePrefix + cause)
        case Success(jsonData) => Success([TextResourceContents(uri, JsonMimeType, jsonData)])
  }

  /** The two adapters agree on every valid request: for the same path,
      the tool's text is the resource's content text, and every hard error
      of the resource is the same message returned by the tool as a soft
      error. */
  lemma HandlersAgree(path: string, host: Host)
    requires path != ""
    ensures var tool := ListDirHandler(Success(path), host);
      var resource := HandleDirResource(Prefix + path, host);
      && (tool.value.ToolText? <==> resource.Success?)
      && (resource.Success? ==>
            resource.value == [TextResourceContents(Prefix + path, JsonMimeType, tool.value.text)])
      && (resource.Failure? ==> tool.value == ToolError(resource.error))
  {
  }

  /** A URI with nothing after the prefix is refused before any read,
      whatever the file system holds; `macos://dir//etc` reads `/etc`. */
  lemma ResourceExamples(host: Host)
    ensures HandleDirResource("macos://dir/", host) == Failure("invalid URI format: macos://dir/")
    ensures host.readDir("/etc").Failure? ==>
      HandleDirResource("macos://dir//etc", host) == Failure("failed to read directory: " + host.readDir("/etc").error)
  {
    ExtractExamples();
    assert InvalidUriPrefix + "macos://dir/" == "invalid URI format: macos://dir/";
  }
}
