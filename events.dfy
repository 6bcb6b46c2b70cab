/**
 * The event classifier and the file-modification rule of the session manager:
 * `TryParseJsonLine`, `ShouldLogEvent`, `TrackModifiedFile` and the
 * case-insensitive modified-files set (ClaudeCodeCommandService.cs).
 *
 * JSON text is not parsed here: a `parse` function stands for Newtonsoft's
 * `JObject.Parse` followed by the `SelectToken` look-ups, and yields the fields
 * the service reads from one line.
 */
module Events {
  import opened Wrappers
  import opened Text

  /** `event.content_block.input`: its `file_path` and `path` members when they are strings. */
  datatype ToolInput = ToolInput(filePath: Option<string>, path: Option<string>)

  /** What `SelectToken("event.type")` finds: nothing (or JSON null), a scalar whose
      text `Value<string>()` returns, or an object or array, which `Value<string>()`
      refuses with an `InvalidCastException` naming the token's .NET type. */
  datatype Token = Missing | Scalar(text: string) | Composite(typeName: string)

  /** One output line as the service sees it: not a JSON object, or an object with
      its `type`, `event.type`, `event.content_block.name` and `event.content_block.input`. */
  datatype ParsedLine =
    | Unparsed
    | Parsed(kind: Option<string>, eventKind: Token, toolName: Option<string>, input: Option<ToolInput>)

  const StreamEvent := "stream_event"
  const ContentBlockStart := "content_block_start"
  const ContentBlockDelta := "content_block_delta"

  /** The tools whose use marks a file as modified, compared ordinally. */
  const FileMutatingTools: set<string> := {"Write", "Edit", "MultiEdit"}

  /** `TryParseJsonLine`: a null or white-space line never reaches the parser. */
  function TryParseJsonLine(line: Option<string>, parse: string -> ParsedLine): ParsedLine {
    if IsNullOrWhiteSpace(line) then Unparsed else parse(line.value)
  }

  /** `ShouldLogEvent`: every line is logged except a parsed `stream_event` whose
      nested event is a `content_block_delta`; `None` is the `InvalidCastException`
      that reading a non-scalar `event.type` of a `stream_event` throws. */
  function ShouldLogEvent(p: ParsedLine): (log: Option<bool>)
    ensures log.None? <==> p.Parsed? && p.kind == Some(StreamEvent) && p.eventKind.Composite?
    ensures log == Some(false) <==> p.Parsed? && p.kind == Some(StreamEvent) && p.eventKind == Scalar(ContentBlockDelta)
    ensures p.Unparsed? ==> log == Some(true)
    ensures p.Parsed? && p.kind.Some? && p.kind.value in {"result", "error", "system"} ==> log == Some(true)
  {
    if p.Unparsed? then Some(true)
    else if p.kind == Some("result") || p.kind == Some("error") || p.kind == Some("system") then Some(true)
    else if p.kind == Some(StreamEvent) then
      match p.eventKind
      case Composite(_) => None
      case Scalar(t) => Some(t != ContentBlockDelta)
      case Missing => Some(true)
    else Some(true)
  }

  /** The loop's completion test: the line's `type` equals `result`, ignoring case. */
  predicate IsResult(p: ParsedLine) {
    p.Parsed? && p.kind.Some? && EqualsIgnoreCase(p.kind.value, "result")
  }

  /** `TrackModifiedFile`'s choice of path: for a `content_block_start` of a
      file-mutating tool with an input, `file_path` when it is present, else `path`;
      nothing when the chosen value is missing or empty. */
  function ToolPath(p: ParsedLine): (r: Option<string>)
    ensures r.Some? ==> p.Parsed? && p.eventKind == Scalar(ContentBlockStart)
    ensures r.Some? ==> p.toolName.Some? && p.toolName.value in FileMutatingTools
    ensures r.Some? ==> r.value != ""
    ensures r.Some? ==> p.input.Some? && (p.input.value.filePath == r || (p.input.value.filePath.None? && p.input.value.path == r))
    ensures p.Parsed? && p.eventKind == Scalar(ContentBlockStart) && p.toolName.Some? && p.toolName.value in FileMutatingTools
            && p.input.Some? && p.input.value.filePath.Some? && p.input.value.filePath.value != ""
            ==> r == p.input.value.filePath
    ensures p.Parsed? && p.eventKind == Scalar(ContentBlockStart) && p.toolName.Some? && p.toolName.value in FileMutatingTools
            && p.input.Some? && p.input.value.filePath.None? && p.input.value.path.Some? && p.input.value.path.value != ""
            ==> r == p.input.value.path
  {
    if p.Unparsed? || p.eventKind != Scalar(ContentBlockStart) then None
    else if p.toolName != Some("Write") && p.toolName != Some("Edit") && p.toolName != Some("MultiEdit") then None
    else if p.input.None? then None
    else
      var chosen := if p.input.value.filePath.Some? then p.input.value.filePath else p.input.value.path;
      if IsNullOrEmpty(chosen) then None else chosen
  }

  /** The path the response loop hands to the tracker: only parsed `stream_event` lines are inspected. */
  function TrackedPath(p: ParsedLine): Option<string> {
    if p.Parsed? && p.kind == Some(StreamEvent) then ToolPath(p) else None
  }

  /** Some member of `files` equals `q` ignoring case. */
  predicate ContainsIgnoreCase(files: set<string>, q: string) {
    exists x :: x in files && EqualsIgnoreCase(x, q)
  }

  /** No two members differ only in case: the invariant of a `HashSet` built with
      `StringComparer.OrdinalIgnoreCase`. */
  predicate CaseDistinct(files: set<string>) {
    forall a, b :: a in files && b in files && EqualsIgnoreCase(a, b) ==> a == b
  }

  /** `HashSet.Add` under `OrdinalIgnoreCase`: the path joins the set unless a
      member equal to it ignoring case is already there (which then stays as it was). */
  function AddPath(files: set<string>, path: string): (r: set<string>)
    ensures files <= r && |r| <= |files| + 1
  {
    if ContainsIgnoreCase(files, path) then files else files + {path}
  }

  /** After `AddPath`, a path is in the set up to case exactly when it was before or
      it equals the added path ignoring case; a path already there up to case leaves
      the set unchanged; and the set keeps at most one spelling of each path. */
  lemma AddPathFacts(files: set<string>, path: string)
    ensures var r := AddPath(files, path);
      && (forall q :: ContainsIgnoreCase(r, q) <==> ContainsIgnoreCase(files, q) || EqualsIgnoreCase(path, q))
      && (ContainsIgnoreCase(files, path) ==> r == files)
      && (CaseDistinct(files) ==> CaseDistinct(r))
  {
    EqualsIgnoreCaseFacts();
  }

  lemma EqualsIgnoreCaseFacts()
    ensures forall a, b :: EqualsIgnoreCase(a, b) ==> EqualsIgnoreCase(b, a)
    ensures forall a, b, c :: EqualsIgnoreCase(a, b) && EqualsIgnoreCase(b, c) ==> EqualsIgnoreCase(a, c)
    ensures forall a :: EqualsIgnoreCase(a, a)
  {
  }

  /** One line's effect on the modified-files set. */
  function Track(files: set<string>, p: ParsedLine): set<string> {
    match TrackedPath(p)
    case Some(path) => AddPath(files, path)
    case None => files
  }

  /** The tracker applied to lines in arrival order. */
  function TrackAll(files: set<string>, lines: seq<string>, parse: string -> ParsedLine): set<string>
    decreases |lines|
  {
    if lines == [] then files else TrackAll(Track(files, parse(lines[0])), lines[1..], parse)
  }

  /** After a run's lines, a path is in the set (up to case) exactly when it was there
      before or some line named it; the set never holds two spellings of one path. */
  lemma {:induction false} TrackAllContents(files: set<string>, lines: seq<string>, parse: string -> ParsedLine, q: string)
    requires CaseDistinct(files)
    ensures CaseDistinct(TrackAll(files, lines, parse))
    ensures files <= TrackAll(files, lines, parse)
    ensures ContainsIgnoreCase(TrackAll(files, lines, parse), q) <==>
              ContainsIgnoreCase(files, q)
              || exists k :: 0 <= k < |lines| && TrackedPath(parse(lines[k])).Some?
                               && EqualsIgnoreCase(TrackedPath(parse(lines[k])).value, q)
    decreases |lines|
  {
    if lines != [] {
      var next := Track(files, parse(lines[0]));
      if TrackedPath(parse(lines[0])).Some? {
        AddPathFacts(files, TrackedPath(parse(lines[0])).value);
      }
      TrackAllContents(next, lines[1..], parse, q);
      var named := (k: int) => 0 <= k < |lines| && TrackedPath(parse(lines[k])).Some?
                               && EqualsIgnoreCase(TrackedPath(parse(lines[k])).value, q);
      if exists k :: 0 <= k < |lines| - 1 && TrackedPath(parse(lines[1..][k])).Some?
                       && EqualsIgnoreCase(TrackedPath(parse(lines[1..][k])).value, q) {
        var k :| 0 <= k < |lines| - 1 && TrackedPath(parse(lines[1..][k])).Some?
                   && EqualsIgnoreCase(TrackedPath(parse(lines[1..][k])).value, q);
        assert named(k + 1);
      }
      if exists k :: named(k) {
        var k :| named(k);
        if k > 0 { assert lines[1..][k - 1] == lines[k]; }
      }
    }
  }

  /** Every member of the set after a run started from the empty set is a path some
      line of that run named. */
  lemma {:induction false} TrackAllFromEmpty(lines: seq<string>, parse: string -> ParsedLine, x: string)
    requires x in TrackAll({}, lines, parse)
    ensures exists k :: 0 <= k < |lines| && TrackedPath(parse(lines[k])) == Some(x)
  {
    TrackAllOrigin({}, lines, parse, x);
  }

  lemma {:induction false} TrackAllOrigin(files: set<string>, lines: seq<string>, parse: string -> ParsedLine, x: string)
    requires x in TrackAll(files, lines, parse)
    ensures x in files || exists k :: 0 <= k < |lines| && TrackedPath(parse(lines[k])) == Some(x)
    decreases |lines|
  {
    if lines != [] {
      var next := Track(files, parse(lines[0]));
      TrackAllOrigin(next, lines[1..], parse, x);
      if x in next && x !in files {
        assert TrackedPath(parse(lines[0])) == Some(x);
      } else if x !in next {
        var k :| 0 <= k < |lines| - 1 && TrackedPath(parse(lines[1..][k])) == Some(x);
        assert TrackedPath(parse(lines[k + 1])) == Some(x);
      }
    }
  }

  /** A `Write` tool start naming `C:\proj\a.txt`, followed by the same path in
      other letter case, leaves exactly the first spelling in the set. */
  lemma TrackKeepsFirstSpelling()
    ensures
      var first := Parsed(Some(StreamEvent), Scalar(ContentBlockStart), Some("Write"), Some(ToolInput(Some("C:\\proj\\a.txt"), None)));
      var again := Parsed(Some(StreamEvent), Scalar(ContentBlockStart), Some("Edit"), Some(ToolInput(Some("c:\\PROJ\\A.TXT"), None)));
      Track(Track({}, first), again) == {"C:\\proj\\a.txt"}
  {
    var s := {"C:\\proj\\a.txt"};
    assert Track({}, Parsed(Some(StreamEvent), Scalar(ContentBlockStart), Some("Write"), Some(ToolInput(Some("C:\\proj\\a.txt"), None)))) == s;
    assert EqualsIgnoreCase("C:\\proj\\a.txt", "c:\\PROJ\\A.TXT");
    assert ContainsIgnoreCase(s, "c:\\PROJ\\A.TXT");
  }

  /** An empty `file_path` does not fall back to `path`: the `??` operator only skips a missing value. */
  lemma EmptyFilePathIsNotReplaced(path: string)
    ensures ToolPath(Parsed(Some(StreamEvent), Scalar(ContentBlockStart), Some("Write"), Some(ToolInput(Some(""), Some(path))))) == None
  {
  }

  /** The tool name is compared ordinally: `write` in lower case is not tracked. */
  lemma ToolNameIsCaseSensitive(f: string)
    ensures ToolPath(Parsed(Some(StreamEvent), Scalar(ContentBlockStart), Some("write"), Some(ToolInput(Some(f), None)))) == None
  {
    assert "write" !in FileMutatingTools;
  }
}
