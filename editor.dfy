/**
 * `EditorContextService` (EditorContextService.cs): the context of the active
 * document (its path relative to the solution directory and its selection) and
 * the list of files of every project in the solution.
 *
 * The IDE object model is a value: a `Dte` holds the active document and the
 * solution, a solution its projects, and a project a tree of `ProjectItem`s.
 * Whether a file exists on disk is a parameter.
 */
module Editor {
  import opened Wrappers
  import opened Text

  /** `Path.DirectorySeparatorChar` and `Path.AltDirectorySeparatorChar`. */
  const Separators: set<char> := {'\\', '/'}

  predicate IsSeparator(c: char) {
    c == '\\' || c == '/'
  }

  // ---------------------------------------------------------------------------
  // Path rules

  /** `Path.GetFileName`: the text after the last directory or volume separator. */
  function GetFileName(p: string): (r: string)
    ensures |r| <= |p|
  {
    if p == [] then []
    else if IsSeparator(p[|p| - 1]) || p[|p| - 1] == ':' then []
    else GetFileName(p[..|p| - 1]) + [p[|p| - 1]]
  }

  /** The file name is the last segment: a suffix of the path with no separator in
      it, preceded by a separator unless it is the whole path. */
  lemma {:induction false} GetFileNameIsLastSegment(p: string)
    ensures var r := GetFileName(p);
      && r == p[|p| - |r|..]
      && (forall k :: 0 <= k < |r| ==> !IsSeparator(r[k]) && r[k] != ':')
      && (|r| < |p| ==> IsSeparator(p[|p| - |r| - 1]) || p[|p| - |r| - 1] == ':')
    decreases |p|
  {
    if p != [] && !(IsSeparator(p[|p| - 1]) || p[|p| - 1] == ':') {
      var q := p[..|p| - 1];
      GetFileNameIsLastSegment(q);
      var r := GetFileName(p);
      assert r == GetFileName(q) + [p[|p| - 1]];
      assert q[|q| - |GetFileName(q)|..] + [p[|p| - 1]] == p[|p| - |r|..];
    }
  }

  /** The end of a UNC root `\\server\share`: the second separator from `i` on, or
      the end of the path. */
  function UncRootEnd(p: string, i: nat, n: nat): (r: nat)
    requires i <= |p|
    ensures i <= r <= |p|
    decreases |p| - i
  {
    if i == |p| then |p|
    else if IsSeparator(p[i]) && n <= 1 then i
    else UncRootEnd(p, i + 1, if IsSeparator(p[i]) then n - 1 else n)
  }

  /** The length of a path's root: `\\server\share`, `\`, `X:` or `X:\`. */
  function RootLength(p: string): (r: nat)
    ensures r <= |p|
  {
    if |p| >= 2 && IsSeparator(p[0]) && IsSeparator(p[1]) then UncRootEnd(p, 2, 2)
    else if |p| >= 1 && IsSeparator(p[0]) then 1
    else if |p| >= 2 && p[1] == ':' then (if |p| >= 3 && IsSeparator(p[2]) then 3 else 2)
    else 0
  }

  /** Scanning back from `i`: the last separator at or after `root`, or `root`. */
  function LastSeparator(p: string, root: nat, i: nat): (j: nat)
    requires root <= i <= |p|
    ensures root <= j <= i && (i > root ==> j < i)
    ensures j > root ==> IsSeparator(p[j])
    decreases i
  {
    if i <= root then i
    else if IsSeparator(p[i - 1]) then i - 1
    else LastSeparator(p, root, i - 1)
  }

  /** No separator lies after the one found. */
  lemma {:induction false} LastSeparatorIsLast(p: string, root: nat, i: nat)
    requires root <= i <= |p|
    ensures forall k :: LastSeparator(p, root, i) < k < i ==> !IsSeparator(p[k])
    decreases i
  {
    if i > root && !IsSeparator(p[i - 1]) {
      LastSeparatorIsLast(p, root, i - 1);
    }
  }

  /** What `Path.GetDirectoryName` gives: an `ArgumentException`, null, or a directory. */
  datatype DirectoryName = Invalid | NoDirectory | Dir(path: string)

  /** `Path.GetDirectoryName`: the path up to its last separator (but never shorter
      than its root), with `/` written as `\`; null for a bare root; an error for a
      path that is empty or only white space. */
  function GetDirectoryName(p: string): (r: DirectoryName)
    ensures r.Dir? ==> |r.path| < |p|
  {
    if IsBlank(p) then Invalid
    else
      var root := RootLength(p);
      if |p| > root then Dir(Replace(p[..LastSeparator(p, root, |p|)], '/', '\\')) else NoDirectory
  }

  /** Only an empty or blank path is rejected; a directory is a proper prefix of the
      path with `/` written as `\`, and a path without separators or root has the
      empty directory. */
  lemma GetDirectoryNameFacts(p: string)
    ensures var r := GetDirectoryName(p);
      && (r == Invalid <==> IsBlank(p))
      && (r.Dir? ==> forall k :: 0 <= k < |r.path| ==> r.path[k] == (if p[k] == '/' then '\\' else p[k]))
      && (r.Dir? && RootLength(p) == 0 && (forall k :: 0 <= k < |p| ==> !IsSeparator(p[k])) ==> r.path == "")
  {
    if !IsBlank(p) && |p| > RootLength(p) {
      var j := LastSeparator(p, RootLength(p), |p|);
      ReplaceMapsEachChar(p[..j], '/', '\\');
    }
  }

  /** A path relative to a directory when it starts with that directory (compared
      ordinally, ignoring case, with no check for a separator after it): the rest,
      without leading separators; otherwise the path as it is. */
  function RelativeTo(filePath: string, dir: string): (r: string)
    ensures |r| <= |filePath|
  {
    if StartsWithIgnoreCase(filePath, dir) then TrimStart(filePath[|dir|..], Separators) else filePath
  }

  /** Under the directory, the relative path is what follows the directory with the
      separators right after it dropped (a suffix not starting with a separator);
      elsewhere it is the path itself. */
  lemma RelativeToFacts(filePath: string, dir: string)
    ensures var r := RelativeTo(filePath, dir);
      && (StartsWithIgnoreCase(filePath, dir) ==>
            && |r| <= |filePath| - |dir| && r == filePath[|filePath| - |r|..]
            && (r == [] || !IsSeparator(r[0]))
            && forall k :: |dir| <= k < |filePath| - |r| ==> IsSeparator(filePath[k]))
      && (!StartsWithIgnoreCase(filePath, dir) ==> r == filePath)
  {
    if StartsWithIgnoreCase(filePath, dir) {
      var rest := filePath[|dir|..];
      TrimStartDropsLeading(rest, Separators);
      var r := TrimStart(rest, Separators);
      assert rest[|rest| - |r|..] == filePath[|filePath| - |r|..];
      forall k | |dir| <= k < |filePath| - |r|
        ensures IsSeparator(filePath[k])
      {
        assert filePath[k] == rest[k - |dir|];
      }
    }
  }

  /** A folder next to the solution folder whose name starts with the solution
      folder's name is treated as inside it. */
  lemma SiblingFolderIsStripped()
    ensures RelativeTo("C:\\src\\app2\\Program.cs", "C:\\src\\app") == "2\\Program.cs"
  {
    assert StartsWithIgnoreCase("C:\\src\\app2\\Program.cs", "C:\\src\\app");
    assert "C:\\src\\app2\\Program.cs"[|"C:\\src\\app"|..] == "2\\Program.cs";
  }

  /** The prefix is compared ignoring case, and every leading separator is dropped. */
  lemma PrefixIgnoresCase()
    ensures RelativeTo("c:\\A\\/b", "C:\\a") == "b"
  {
    var s := "c:\\A\\/b";
    assert Upper('a') == Upper('A') && Upper('c') == Upper('C');
    assert StartsWithIgnoreCase(s, "C:\\a");
    assert s[4..] == "\\/b";
    assert TrimStart("b", Separators) == "b";
    assert TrimStart("/b", Separators) == "b";
  }

  // ---------------------------------------------------------------------------
  // The active document's context

  datatype Selection = Selection(isEmpty: bool, text: string, topLine: int, bottomLine: int, currentLine: int)
  datatype TextDocument = TextDocument(selection: Option<Selection>, fullText: string)
  datatype Document = Document(fullName: string, language: string, textDocument: Option<TextDocument>)
  datatype Project = Project(projectItems: seq<ProjectItem>)
  datatype Solution = Solution(fullName: string, projects: seq<Project>)
  datatype Dte = Dte(activeDocument: Option<Document>, solution: Option<Solution>)

  datatype EditorContext = EditorContext(
    filePath: string,
    fileName: string,
    relativePath: string,
    language: string,
    selectedText: Option<string>,
    selectionStartLine: int,
    selectionEndLine: int,
    currentLine: int,
    fullText: Option<string>)
  {
    /** `HasSelection`. */
    predicate HasSelection() {
      !IsNullOrEmpty(selectedText)
    }
  }

  /** The relative path of the active document: relative to the solution's directory
      when there is a solution with a name, its directory is not empty and the
      document is under it; otherwise (including when the directory cannot be
      computed) the full path. */
  function ContextRelativePath(filePath: string, solution: Option<Solution>): string {
    if solution.Some? && solution.value.fullName != "" then
      match GetDirectoryName(solution.value.fullName)
      case Dir(dir) => if dir != "" && StartsWithIgnoreCase(filePath, dir) then RelativeTo(filePath, dir) else filePath
      case _ => filePath
    else filePath
  }

  /** The selection, caret line and full text read from the document's text view:
      the selection only when it is not empty; the caret line 0 without a selection. */
  function ReadTextDocument(context: EditorContext, textDoc: TextDocument): (r: EditorContext)
    ensures r.fullText == Some(textDoc.fullText)
    ensures r.selectedText == if textDoc.selection.Some? && !textDoc.selection.value.isEmpty
                              then Some(textDoc.selection.value.text) else context.selectedText
  {
    var selected :=
      if textDoc.selection.Some? && !textDoc.selection.value.isEmpty then
        var sel := textDoc.selection.value;
        context.(selectedText := Some(sel.text), selectionStartLine := sel.topLine, selectionEndLine := sel.bottomLine)
      else context;
    selected.(currentLine := if textDoc.selection.Some? then textDoc.selection.value.currentLine else 0,
              fullText := Some(textDoc.fullText))
  }

  /** `GetCurrentContext`. */
  function CurrentContext(dte: Option<Dte>): Option<EditorContext> {
    if dte.None? || dte.value.activeDocument.None? then None
    else
      var doc := dte.value.activeDocument.value;
      var context := EditorContext(doc.fullName, GetFileName(doc.fullName),
                                   ContextRelativePath(doc.fullName, dte.value.solution),
                                   doc.language, None, 0, 0, 0, None);
      match doc.textDocument
      case None => Some(context)
      case Some(textDoc) => Some(ReadTextDocument(context, textDoc))
  }

  /** There is a context exactly when there is an active document; its paths are the
      document's; it has a selection exactly when the editor reports a non-empty
      selection whose text is not empty. */
  lemma CurrentContextFacts(dte: Option<Dte>)
    ensures CurrentContext(dte).None? <==> dte.None? || dte.value.activeDocument.None?
    ensures CurrentContext(dte).Some? ==>
      var c := CurrentContext(dte).value;
      var doc := dte.value.activeDocument.value;
      && c.filePath == doc.fullName
      && c.fileName == GetFileName(doc.fullName)
      && c.relativePath == ContextRelativePath(doc.fullName, dte.value.solution)
      && (c.HasSelection() <==>
            doc.textDocument.Some? && doc.textDocument.value.selection.Some?
            && !doc.textDocument.value.selection.value.isEmpty && doc.textDocument.value.selection.value.text != "")
      && (c.fullText.Some? <==> doc.textDocument.Some?)
  {
  }

  /** Without a solution, or one without a name, the relative path is the full path;
      a document outside the solution directory keeps its full path too. */
  lemma ContextRelativePathFallsBack(filePath: string, solution: Option<Solution>)
    ensures solution.None? || solution.value.fullName == "" ==> ContextRelativePath(filePath, solution) == filePath
    ensures solution.Some? && GetDirectoryName(solution.value.fullName).Dir? &&
            !StartsWithIgnoreCase(filePath, GetDirectoryName(solution.value.fullName).path)
            ==> ContextRelativePath(filePath, solution) == filePath
  {
  }

  // ---------------------------------------------------------------------------
  // Project files

  /** An item of a project: its file names (`FileNames[1..FileCount]`, each possibly
      null), its nested items and the items of its sub-project, if any. A null item
      collection is the same as an empty one. */
  datatype ProjectItem = ProjectItem(fileNames: seq<Option<string>>, projectItems: seq<ProjectItem>, subProject: SubProject)
  datatype SubProject = NoSubProject | SubProject(projectItems: seq<ProjectItem>)

  datatype ProjectFileInfo = ProjectFileInfo(name: string, path: string, directory: string)

  /** The entry for an existing file: its name, its path relative to the solution
      directory with `/` separators, and the directory part of that path with `/`
      separators (empty when there is none); nothing when the directory cannot be
      computed (the exception is caught and the file skipped). */
  function MakeFileInfo(filePath: string, solutionDir: string): Option<ProjectFileInfo> {
    var relative := RelativeTo(filePath, solutionDir);
    match GetDirectoryName(relative)
    case Invalid => None
    case NoDirectory => Some(ProjectFileInfo(GetFileName(filePath), Replace(relative, '\\', '/'), ""))
    case Dir(d) => Some(ProjectFileInfo(GetFileName(filePath), Replace(relative, '\\', '/'), Replace(d, '\\', '/')))
  }

  /** The entries for one item's file names, in index order: only names that are
      neither null nor empty and whose file exists. */
  function FilesOf(names: seq<Option<string>>, solutionDir: string, fileExists: string -> bool): seq<ProjectFileInfo> {
    if names == [] then []
    else Entry(names[0], solutionDir, fileExists) + FilesOf(names[1..], solutionDir, fileExists)
  }

  /** The entry, if any, for one file name. */
  function Entry(name: Option<string>, solutionDir: string, fileExists: string -> bool): (r: seq<ProjectFileInfo>)
    ensures |r| <= 1
    ensures |r| == 1 ==> name.Some? && name.value != "" && fileExists(name.value)
                         && MakeFileInfo(name.value, solutionDir) == Some(r[0])
  {
    if !IsNullOrEmpty(name) && fileExists(name.value) then
      match MakeFileInfo(name.value, solutionDir)
      case Some(info) => [info]
      case None => []
    else []
  }

  /** The entries for a collection of items, item by item. */
  function CollectItems(items: seq<ProjectItem>, solutionDir: string, fileExists: string -> bool): seq<ProjectFileInfo>
    decreases items
  {
    if items == [] then [] else CollectItem(items[0], solutionDir, fileExists) + CollectItems(items[1..], solutionDir, fileExists)
  }

  /** The entries for one item: its own files, then its nested items, then its
      sub-project's items. */
  function CollectItem(item: ProjectItem, solutionDir: string, fileExists: string -> bool): seq<ProjectFileInfo>
    decreases item
  {
    FilesOf(item.fileNames, solutionDir, fileExists)
    + CollectItems(item.projectItems, solutionDir, fileExists)
    + match item.subProject
      case SubProject(subItems) => CollectItems(subItems, solutionDir, fileExists)
      case NoSubProject => []
  }

  /** The entries for the projects in order. */
  function CollectProjects(projects: seq<Project>, solutionDir: string, fileExists: string -> bool): seq<ProjectFileInfo> {
    if projects == [] then []
    else CollectItems(projects[0].projectItems, solutionDir, fileExists) + CollectProjects(projects[1..], solutionDir, fileExists)
  }

  /** `GetProjectFiles`: nothing without a solution or when its directory is empty or
      cannot be computed; otherwise every project's entries in order. */
  function ProjectFiles(dte: Option<Dte>, fileExists: string -> bool): seq<ProjectFileInfo> {
    if dte.None? || dte.value.solution.None? then []
    else
      match GetDirectoryName(dte.value.solution.value.fullName)
      case Dir(dir) => if dir == "" then [] else CollectProjects(dte.value.solution.value.projects, dir, fileExists)
      case _ => []
  }

  /** Every file name of a collection of items in the order the walk visits them:
      an item's own names, then its nested items', then its sub-project's. */
  function AllFileNames(items: seq<ProjectItem>): seq<Option<string>>
    decreases items
  {
    if items == [] then [] else ItemFileNames(items[0]) + AllFileNames(items[1..])
  }

  function ItemFileNames(item: ProjectItem): seq<Option<string>>
    decreases item
  {
    item.fileNames + AllFileNames(item.projectItems)
    + match item.subProject
      case SubProject(subItems) => AllFileNames(subItems)
      case NoSubProject => []
  }

  lemma {:induction false} FilesOfAppend(a: seq<Option<string>>, b: seq<Option<string>>, solutionDir: string, fileExists: string -> bool)
    ensures FilesOf(a + b, solutionDir, fileExists) == FilesOf(a, solutionDir, fileExists) + FilesOf(b, solutionDir, fileExists)
    decreases |a|
  {
    if a == [] {
      assert a + b == b;
    } else {
      assert (a + b)[1..] == a[1..] + b;
      FilesOfAppend(a[1..], b, solutionDir, fileExists);
    }
  }

  lemma {:induction false} CollectItemsAppend(a: seq<ProjectItem>, b: seq<ProjectItem>, solutionDir: string, fileExists: string -> bool)
    ensures CollectItems(a + b, solutionDir, fileExists) == CollectItems(a, solutionDir, fileExists) + CollectItems(b, solutionDir, fileExists)
    decreases |a|
  {
    if a == [] {
      assert a + b == b;
    } else {
      assert (a + b)[1..] == a[1..] + b;
      CollectItemsAppend(a[1..], b, solutionDir, fileExists);
    }
  }

  /** The walk lists exactly the entries of the files of the tree taken in pre-order
      (own files, nested items, sub-project), each file in index order. */
  lemma {:induction false} CollectIsPreorder(items: seq<ProjectItem>, solutionDir: string, fileExists: string -> bool)
    ensures CollectItems(items, solutionDir, fileExists) == FilesOf(AllFileNames(items), solutionDir, fileExists)
    decreases items
  {
    if items != [] {
      CollectItemIsPreorder(items[0], solutionDir, fileExists);
      CollectIsPreorder(items[1..], solutionDir, fileExists);
      FilesOfAppend(ItemFileNames(items[0]), AllFileNames(items[1..]), solutionDir, fileExists);
    }
  }

  lemma {:induction false} CollectItemIsPreorder(item: ProjectItem, solutionDir: string, fileExists: string -> bool)
    ensures CollectItem(item, solutionDir, fileExists) == FilesOf(ItemFileNames(item), solutionDir, fileExists)
    decreases item
  {
    CollectIsPreorder(item.projectItems, solutionDir, fileExists);
    var sub := match item.subProject case SubProject(subItems) => AllFileNames(subItems) case NoSubProject => [];
    match item.subProject {
      case SubProject(subItems) => CollectIsPreorder(subItems, solutionDir, fileExists);
      case NoSubProject =>
    }
    FilesOfAppend(item.fileNames, AllFileNames(item.projectItems), solutionDir, fileExists);
    FilesOfAppend(item.fileNames + AllFileNames(item.projectItems), sub, solutionDir, fileExists);
  }

  /** Every entry comes from a file name that is neither null nor empty and whose
      file exists. */
  lemma {:induction false} FilesOfExist(names: seq<Option<string>>, solutionDir: string, fileExists: string -> bool, k: nat)
    requires k < |FilesOf(names, solutionDir, fileExists)|
    ensures exists j :: 0 <= j < |names| && names[j].Some? && names[j].value != "" && fileExists(names[j].value)
                        && MakeFileInfo(names[j].value, solutionDir) == Some(FilesOf(names, solutionDir, fileExists)[k])
    decreases |names|
  {
    var here := Entry(names[0], solutionDir, fileExists);
    if k >= |here| {
      FilesOfExist(names[1..], solutionDir, fileExists, k - |here|);
      var j :| 0 <= j < |names[1..]| && names[1..][j].Some? && names[1..][j].value != "" && fileExists(names[1..][j].value)
               && MakeFileInfo(names[1..][j].value, solutionDir) == Some(FilesOf(names[1..], solutionDir, fileExists)[k - |here|]);
      assert names[j + 1] == names[1..][j];
    }
  }

  /** An entry's path is its relative path with `/` separators only; its directory
      also has only `/` separators, is a prefix of its path, and is empty for a file
      directly in the solution directory. */
  lemma FileInfoShape(filePath: string, solutionDir: string)
    requires MakeFileInfo(filePath, solutionDir).Some?
    ensures var info := MakeFileInfo(filePath, solutionDir).value;
      var relative := RelativeTo(filePath, solutionDir);
      && info.name == GetFileName(filePath)
      && info.path == Replace(relative, '\\', '/')
      && '\\' !in info.path && '\\' !in info.directory
      && |info.directory| <= |info.path| && info.directory == info.path[..|info.directory|]
      && (RootLength(relative) == 0 && (forall k :: 0 <= k < |relative| ==> !IsSeparator(relative[k])) ==> info.directory == "")
  {
    var info := MakeFileInfo(filePath, solutionDir).value;
    var relative := RelativeTo(filePath, solutionDir);
    ReplaceMapsEachChar(relative, '\\', '/');
    GetDirectoryNameFacts(relative);
    if GetDirectoryName(relative).Dir? {
      var d := GetDirectoryName(relative).path;
      ReplaceMapsEachChar(d, '\\', '/');
      assert forall k :: 0 <= k < |info.directory| ==> info.directory[k] == info.path[k];
    }
  }

  /** With no solution, or a solution whose directory is empty or cannot be
      computed, there are no project files. */
  lemma ProjectFilesWithoutSolution(dte: Option<Dte>, fileExists: string -> bool)
    requires dte.None? || dte.value.solution.None? || !GetDirectoryName(dte.value.solution.value.fullName).Dir?
             || GetDirectoryName(dte.value.solution.value.fullName).path == ""
    ensures ProjectFiles(dte, fileExists) == []
  {
  }

  /** A solution that has not been saved (an empty name) has no project files. */
  lemma UnsavedSolutionHasNoFiles(active: Option<Document>, projects: seq<Project>, fileExists: string -> bool)
    ensures ProjectFiles(Some(Dte(active, Some(Solution("", projects)))), fileExists) == []
  {
  }

  // ---------------------------------------------------------------------------
  // The service

  /** The `List<ProjectFileInfo>` the walk appends to. */
  class ProjectFileList {
    var files: seq<ProjectFileInfo>

    constructor ()
      ensures files == []
    {
      files := [];
    }

    method Add(info: ProjectFileInfo)
      modifies this
      ensures files == old(files) + [info]
    {
      files := files + [info];
    }
  }

  class EditorContextService {
    var dte: Option<Dte>

    constructor ()
      ensures dte.None?
    {
      dte := None;
    }

    /** `Initialize`. */
    method Initialize(d: Dte)
      modifies this
      ensures dte == Some(d)
    {
      dte := Some(d);
    }

    /** `GetCurrentContext`. */
    function GetCurrentContext(): (r: Option<EditorContext>)
      reads this
      ensures r.None? <==> dte.None? || dte.value.activeDocument.None?
      ensures r.Some? ==> r.value.filePath == dte.value.activeDocument.value.fullName
    {
      CurrentContext(dte)
    }

    /** `GetProjectFiles`. */
    method GetProjectFiles(fileExists: string -> bool) returns (result: seq<ProjectFileInfo>)
      ensures result == ProjectFiles(dte, fileExists)
    {
      var files := new ProjectFileList();
      if dte.None? || dte.value.solution.None? {
        return files.files;
      }
      var solution := dte.value.solution.value;
      var solutionDir := GetDirectoryName(solution.fullName);
      if !solutionDir.Dir? || solutionDir.path == "" {
        return files.files;
      }
      var p := 0;
      assert solution.projects[..0] == [];
      while p < |solution.projects|
        invariant 0 <= p <= |solution.projects|
        invariant files.files == CollectProjects(solution.projects[..p], solutionDir.path, fileExists)
      {
        GetProjectItems(solution.projects[p].projectItems, solutionDir.path, files, fileExists);
        CollectProjectsAppend(solution.projects[..p], solution.projects[p], solutionDir.path, fileExists);
        assert solution.projects[..p + 1] == solution.projects[..p] + [solution.projects[p]];
        p := p + 1;
      }
      assert solution.projects[..p] == solution.projects;
      return files.files;
    }

    /** `GetProjectItems`: append the entries of a collection of items to `files`. */
    method GetProjectItems(items: seq<ProjectItem>, solutionDir: string, files: ProjectFileList, fileExists: string -> bool)
      modifies files
      ensures files.files == old(files.files) + CollectItems(items, solutionDir, fileExists)
      decreases items
    {
      var k := 0;
      assert items[..0] == [];
      while k < |items|
        invariant 0 <= k <= |items|
        invariant files.files == old(files.files) + CollectItems(items[..k], solutionDir, fileExists)
      {
        GetProjectItem(items[k], solutionDir, files, fileExists);
        CollectItemsAppend(items[..k], [items[k]], solutionDir, fileExists);
        assert CollectItems([items[k]], solutionDir, fileExists) == CollectItem(items[k], solutionDir, fileExists) by {
          assert [items[k]][1..] == [];
        }
        assert items[..k + 1] == items[..k] + [items[k]];
        k := k + 1;
      }
      assert items[..k] == items;
    }

    /** The body of the walk for one item: its files, then its nested items, then
        the items of its sub-project. */
    method GetProjectItem(item: ProjectItem, solutionDir: string, files: ProjectFileList, fileExists: string -> bool)
      modifies files
      ensures files.files == old(files.files) + CollectItem(item, solutionDir, fileExists)
      decreases item
    {
      ghost var own := FilesOf(item.fileNames, solutionDir, fileExists);
      ghost var nested := CollectItems(item.projectItems, solutionDir, fileExists);
      ghost var sub := match item.subProject
        case SubProject(subItems) => CollectItems(subItems, solutionDir, fileExists)
        case NoSubProject => [];
      assert CollectItem(item, solutionDir, fileExists) == own + nested + sub;
      AddItemFiles(item.fileNames, solutionDir, files, fileExists);
      if item.projectItems != [] {
        GetProjectItems(item.projectItems, solutionDir, files, fileExists);
      }
      assert files.files == old(files.files) + own + nested;
      if item.subProject.SubProject? {
        GetProjectItems(item.subProject.projectItems, solutionDir, files, fileExists);
      }
      AppendAssoc(old(files.files), own, nested, sub);
    }
  }

  /** Two's-complement wrap into the range of a `short`, as C# `++` on a `short` does
      in an unchecked context. */
  function Wrap16(x: int): (r: int)
    ensures -32768 <= r <= 32767
    ensures -32768 <= x <= 32767 ==> r == x
  {
    (x + 32768) % 65536 - 32768
  }

  /** The source's `short` loop counter after `n` increments from 1. */
  function ShortLoopCounter(n: nat): int {
    Wrap16(1 + n)
  }

  /** As written, the loop over an item whose `FileCount` is 32767, the largest
      `short`, never ends: the counter reaches 32767 after 32766 increments, the next
      increment wraps it to -32768, and the guard `i <= fileCount` holds after every
      increment. */
  lemma ShortLoopNeverEndsAtMaxCount(n: nat)
    ensures ShortLoopCounter(n) <= 32767
    ensures ShortLoopCounter(32766) == 32767 && ShortLoopCounter(32767) == -32768
  {
  }

  /** The `for` loop over `FileNames[1..FileCount]` of one item. */
  method AddItemFiles(fileNames: seq<Option<string>>, solutionDir: string, files: ProjectFileList, fileExists: string -> bool)
    modifies files
    ensures files.files == old(files.files) + FilesOf(fileNames, solutionDir, fileExists)
  {
    var i := 1;
    assert fileNames[..0] == [];
    while i <= |fileNames|
      invariant 1 <= i <= |fileNames| + 1
      invariant files.files == old(files.files) + FilesOf(fileNames[..i - 1], solutionDir, fileExists)
    {
      var filePath := fileNames[i - 1];
      ghost var before := files.files;
      ghost var entry := Entry(filePath, solutionDir, fileExists);
      if !IsNullOrEmpty(filePath) && fileExists(filePath.value) {
        var info := MakeFileInfo(filePath.value, solutionDir);
        if info.Some? {
          assert entry == [info.value];
          files.Add(info.value);
        } else {
          assert entry == [];
        }
      } else {
        assert entry == [];
      }
      assert files.files == before + entry;
      assert FilesOf([filePath], solutionDir, fileExists) == entry by {
        assert [filePath][1..] == [];
      }
      assert fileNames[..i] == fileNames[..i - 1] + [filePath];
      FilesOfAppend(fileNames[..i - 1], [filePath], solutionDir, fileExists);
      ghost var done := FilesOf(fileNames[..i - 1], solutionDir, fileExists);
      assert FilesOf(fileNames[..i], solutionDir, fileExists) == done + entry;
      assert (old(files.files) + done) + entry == old(files.files) + (done + entry);
      i := i + 1;
    }
    assert fileNames[..i - 1] == fileNames;
  }

  lemma AppendAssoc<T>(a: seq<T>, b: seq<T>, c: seq<T>, d: seq<T>)
    ensures a + b + c + d == a + (b + c + d)
  {
  }

  lemma {:induction false} CollectProjectsAppend(a: seq<Project>, p: Project, solutionDir: string, fileExists: string -> bool)
    ensures CollectProjects(a + [p], solutionDir, fileExists)
         == CollectProjects(a, solutionDir, fileExists) + CollectItems(p.projectItems, solutionDir, fileExists)
    decreases |a|
  {
    if a == [] {
      assert a + [p] == [p];
    } else {
      assert (a + [p])[1..] == a[1..] + [p];
      CollectProjectsAppend(a[1..], p, solutionDir, fileExists);
    }
  }
}
