/** Trusted repository configuration: immutable generations, their round trip through a staging directory, and the focused
    edits of one generation into the next. */
module Config {
  import opened Prelude
  import opened ConfigPaths

  /** A directory as it is read: a file, or something that may not be in a bundle. */
  datatype Entry = File(content: string) | Symlink | NotText
  type Dir = map<Path, Entry>

  const MAX_BUNDLE_FILE_BYTES := 1_000_000
  const MAX_BUNDLE_BYTES := 10_000_000
  const SKILL_FILE := "SKILL.md"
  const TOOL_FILE := "tool.yaml"
  const SKILLS: Path := ["skills"]
  const SCRIPTS: Path := ["tools", "scripts"]
  const MCP: Path := ["tools", "mcp"]
  const WORKFLOW: Path := ["workflow.yaml"]
  const MCP_SERVERS: Path := ["tools", "mcp", "servers.yaml"]

  /** `_is_bundle_path` */
  predicate BundlePath(p: Path) { p == WORKFLOW || Below(SKILLS, p) || Below(SCRIPTS, p) || Below(MCP, p) }

  function SkillDoc(dir: string): Path { SKILLS + [dir] + [SKILL_FILE] }

  function ToolDoc(dir: string): Path { SCRIPTS + [dir] + [TOOL_FILE] }

  datatype Script = Script(name: string, entrypoint: Path, mutates: bool)

  /** What a workflow document names: skills and tools of any phase, and the tools of planning and validation. */
  datatype Workflow = Workflow(skills: set<string>, tools: set<string>, watching: set<string>)

  /** The document formats as parsers; None is a rejected document. `nameOf` is the lenient look at a tool's name. */
  datatype Formats = Formats(
    skillOk: (string, string) -> bool, scriptOf: string -> Option<Script>, nameOf: string -> Option<string>,
    mcpOf: string -> Option<set<string>>, workflowOf: string -> Option<Workflow>, builtin: set<string>)

  predicate Letter(c: char) { 'a' <= c <= 'z' || 'A' <= c <= 'Z' }

  predicate NameChar(c: char) { Letter(c) || '0' <= c <= '9' || c in {'_', '.', '-'} }

  /** The pattern of skill names. */
  predicate LegalName(name: string) {
    0 < |name| <= 64 && Letter(name[0]) && forall i :: 0 <= i < |name| ==> NameChar(name[i])
  }

  lemma LegalIsOrdinary(name: string)
    requires LegalName(name)
    ensures Ordinary(name)
  {
  }

  // ------------------------------------------------------------------ reading a directory

  ghost function Total(files: Files): nat {
    if files == map[] then 0 else var p :| p in files; |files[p]| + Total(files - {p})
  }

  predicate SizeOk(content: string) { 0 < |content| <= MAX_BUNDLE_FILE_BYTES }

  ghost predicate Readable(d: Dir) {
    && (forall p :: p in d ==> d[p].File? && SizeOk(d[p].content) && BundlePath(p))
    && Total(Contents(d)) <= MAX_BUNDLE_BYTES
  }

  function Contents(d: Dir): Files { map p | p in d && d[p].File? :: d[p].content }

  /** `_read_bundle_files` */
  ghost function Read(d: Dir): Option<Files> { if Readable(d) then Some(Contents(d)) else None }

  /** `materialize`, into an empty directory. */
  function Staged(files: Files): Dir { map p | p in files :: File(files[p]) }

  // ------------------------------------------------------------------ validation

  predicate SkillDir(files: Files, dir: string) { IsDir(files, SKILLS + [dir]) }

  predicate ScriptDir(files: Files, dir: string) { IsDir(files, SCRIPTS + [dir]) }

  ghost predicate SkillsOk(f: Formats, files: Files) {
    && (exists dir :: SkillDir(files, dir))
    && forall dir :: SkillDir(files, dir) ==> LegalName(dir) && SkillDoc(dir) in files && f.skillOk(dir, files[SkillDoc(dir)])
  }

  ghost predicate ScriptOk(f: Formats, files: Files, dir: string) {
    && ToolDoc(dir) in files
    && var script := f.scriptOf(files[ToolDoc(dir)]);
      script.Some? && SCRIPTS + [dir] + script.value.entrypoint in files
  }

  predicate Registers(f: Formats, files: Files, dir: string, name: string) {
    ToolDoc(dir) in files && f.nameOf(files[ToolDoc(dir)]) == Some(name)
  }

  ghost predicate ScriptsOk(f: Formats, files: Files) {
    && (forall dir :: ScriptDir(files, dir) ==> ScriptOk(f, files, dir))
    && forall a, b, name :: Registers(f, files, a, name) && Registers(f, files, b, name) ==> a == b
  }

  ghost predicate HasScript(f: Formats, files: Files, name: string) { exists dir :: Registers(f, files, dir, name) }

  ghost predicate Mutates(f: Formats, files: Files, name: string) {
    exists dir :: Registers(f, files, dir, name) &&
      var s := f.scriptOf(files[ToolDoc(dir)]); s.Some? && s.value.mutates
  }

  function McpTools(f: Formats, files: Files): Option<set<string>> {
    if MCP_SERVERS in files then f.mcpOf(files[MCP_SERVERS]) else Some({})
  }

  ghost predicate NoCollision(f: Formats, files: Files) {
    McpTools(f, files).Some? && McpTools(f, files).value !! f.builtin &&
    forall name :: HasScript(f, files, name) ==> name !in f.builtin && name !in McpTools(f, files).value
  }

  function WorkflowIn(f: Formats, files: Files): Option<Workflow> {
    if WORKFLOW in files then f.workflowOf(files[WORKFLOW]) else None
  }

  ghost predicate WorkflowOk(f: Formats, files: Files) {
    && WorkflowIn(f, files).Some? && McpTools(f, files).Some?
    && var w := WorkflowIn(f, files).value;
      && (forall s :: s in w.skills ==> SkillDir(files, s))
      && (forall t :: t in w.tools ==> t in f.builtin || t in McpTools(f, files).value || HasScript(f, files, t))
      && (forall t :: t in w.watching ==> !Mutates(f, files, t))
  }

  /** `validate_repo_bundle`, as a condition on the file map. */
  ghost predicate Valid(f: Formats, files: Files) {
    && Readable(Staged(files))
    && SkillsOk(f, files) && ScriptsOk(f, files) && NoCollision(f, files) && WorkflowOk(f, files)
  }

  // ------------------------------------------------------------------ the registry

  /** Digests are injective: the canonical manifest holds every file, and the rest of it is computed from them. */
  datatype GenerationId = GenerationId(number: nat, digest: Files)

  /** One repository's generations in insertion order, their files, the current one and the threads' bindings. */
  datatype Registry = Registry(
    rows: seq<GenerationId>, files: map<GenerationId, Files>, current: Option<GenerationId>, threads: map<string, Option<GenerationId>>)

  function MaxNumber(rows: seq<GenerationId>): nat {
    if rows == [] then 0
    else
      var rest, last := MaxNumber(rows[..|rows| - 1]), rows[|rows| - 1].number;
      if rest < last then last else rest
  }

  /** `install`; None when the directory is not a valid bundle. */
  ghost function Install(f: Formats, r: Registry, d: Dir): Option<Registry> {
    match Read(d)
    case None => None
    case Some(files) =>
      if !Valid(f, files) then None
      else
        var id := GenerationId(MaxNumber(r.rows) + 1, files);
        Some(r.(rows := r.rows + [id], files := r.files[id := files], current := Some(id)))
  }

  // ------------------------------------------------------------------ edits

  datatype Command =
    | SetWorkflow(content: string)
    | SetMcp(content: string)
    | AddSkill(name: string, tree: Files, replace: bool)
    | RemoveSkill(name: string)
    | AddTool(dir: string, tree: Files, replace: bool)
    | RemoveTool(name: string)

  /** What a command makes of the staged files. Outside: it acts on a path that leaves the staging directory. */
  datatype Change = Refused | Outside | Edited(files: Files)

  predicate SourceOk(tree: Files) { forall rest :: rest in tree ==> rest != [] && SizeOk(tree[rest]) }

  /** The last component of a source path: empty for the current directory, possibly `..`, never with a slash. */
  predicate SourceName(dir: string) { '/' !in dir && '\0' !in dir && dir != "." }

  function ToolTarget(dir: string): Path { if dir == "" then SCRIPTS else SCRIPTS + [dir] }

  /** `_installed_script_directories`, at one name. */
  ghost function DirectoryOf(f: Formats, files: Files, name: string): Option<string> {
    if HasScript(f, files, name) then var dir :| Registers(f, files, dir, name); Some(dir) else None
  }

  /** The removal of what registers the tool's name, whatever its directory is called. */
  ghost function Cleared(f: Formats, files: Files, name: string): Files {
    var existing := DirectoryOf(f, files, name);
    if existing.Some? then Without(files, SCRIPTS + [existing.value]) else files
  }

  ghost function Edit(f: Formats, files: Files, c: Command): Change {
    match c
    case SetWorkflow(content) =>
      if SizeOk(content) && !IsDir(files, WORKFLOW) then Edited(files[WORKFLOW := content]) else Refused
    case SetMcp(content) =>
      if SizeOk(content) && !IsDir(files, MCP_SERVERS) then Edited(files[MCP_SERVERS := content]) else Refused
    case AddSkill(name, tree, replace) =>
      if [SKILL_FILE] !in tree || !SourceOk(tree) || !LegalName(name) || !f.skillOk(name, tree[[SKILL_FILE]]) then Refused
      else if SKILLS + [name] in files || (SkillDir(files, name) && !replace) then Refused
      else Edited(With(Without(files, SKILLS + [name]), SKILLS + [name], tree))
    case RemoveSkill(name) =>
      if Absolute(name) then Outside
      else if !IsDir(files, SKILLS) then Refused
      else
        var place := Walk(files, SKILLS, Parts(name), {});
        if place.Left? then Outside
        else if Removable(files, place) then Edited(Without(files, place.path))
        else Refused
    case AddTool(dir, tree, replace) =>
      if [TOOL_FILE] !in tree || !SourceOk(tree) || f.nameOf(tree[[TOOL_FILE]]) in {None, Some("")} || !SourceName(dir) || dir == ".."
      then Refused
      else
        var name, target := f.nameOf(tree[[TOOL_FILE]]).value, ToolTarget(dir);
        if (HasScript(f, files, name) || Exists(files, target)) && !replace then Refused
        else if target in files then Refused
        else Edited(With(Without(Cleared(f, files, name), target), target, tree))
    case RemoveTool(name) =>
      var existing := DirectoryOf(f, files, name);
      if existing.Some? then Edited(Without(files, SCRIPTS + [existing.value])) else Refused
  }

  /** `_guard_removals`: nothing the current workflow references is removed. */
  predicate Guard(f: Formats, files: Files, c: Command) {
    match WorkflowIn(f, files)
    case None => false
    case Some(w) =>
      match c
      case RemoveSkill(name) => name !in w.skills
      case RemoveTool(name) => name !in w.tools
      case _ => true
  }

  /** `_apply`: guard, materialize, edit, install. None when it is refused, and where the edit leaves the staging directory. */
  ghost function Apply(f: Formats, r: Registry, c: Command): Option<Registry> {
    if r.current.None? || r.current.value !in r.files then None
    else
      var files := r.files[r.current.value];
      if !Guard(f, files, c) || !Edit(f, files, c).Edited? then None
      else Install(f, r, Staged(Edit(f, files, c).files))
  }

  datatype Label = Configure(dir: Dir) | Command_(command: Command) | NewThread(thread: string)

  ghost function Step(f: Formats, r: Registry, l: Label): Option<Registry> {
    match l
    case Configure(d) => Install(f, r, d)
    case Command_(c) => Apply(f, r, c)
    case NewThread(t) => if t in r.threads then None else Some(r.(threads := r.threads[t := r.current]))
  }

  const UNCONFIGURED := Registry([], map[], None, map[])

  ghost function Play(f: Formats, r: Registry, run: seq<Label>): Registry
    decreases |run|
  {
    if run == [] then r else Play(f, Step(f, r, run[0]).GetOr(r), run[1..])
  }

  // ------------------------------------------------------------------ generations are immutable

  ghost predicate Inv(f: Formats, r: Registry) {
    && (forall i :: 0 <= i < |r.rows| ==> r.rows[i].number == i + 1 && r.rows[i] in r.files)
    && (forall g :: g in r.files ==> g in r.rows && g.digest == r.files[g] && Valid(f, r.files[g]))
    && r.current == (if r.rows == [] then None else Some(r.rows[|r.rows| - 1]))
    && (forall t :: t in r.threads && r.threads[t].Some? ==> r.threads[t].value in r.files)
  }

  /** Nothing written is ever written again: generations, their files, and the threads' bindings only gain entries. */
  ghost predicate Later(r: Registry, s: Registry) {
    && r.rows <= s.rows
    && (forall g :: g in r.files ==> g in s.files && s.files[g] == r.files[g])
    && (forall t :: t in r.threads ==> t in s.threads && s.threads[t] == r.threads[t])
  }

  lemma {:induction false} MaxIsLength(rows: seq<GenerationId>)
    requires forall i :: 0 <= i < |rows| ==> rows[i].number == i + 1
    ensures MaxNumber(rows) == |rows|
  {
    if rows != [] { MaxIsLength(rows[..|rows| - 1]); }
  }

  lemma AppendKeeps(f: Formats, r: Registry, files: Files, id: GenerationId)
    requires Inv(f, r) && Valid(f, files) && id == GenerationId(|r.rows| + 1, files)
    ensures var s := r.(rows := r.rows + [id], files := r.files[id := files], current := Some(id));
      Inv(f, s) && Later(r, s)
  {
    hide Valid;
    var rows := r.rows + [id];
    assert rows[|r.rows|] == id && forall i :: 0 <= i < |r.rows| ==> rows[i] == r.rows[i];
    assert id !in r.rows;
    assert id !in r.files;
  }

  lemma InstallKeeps(f: Formats, r: Registry, d: Dir)
    requires Inv(f, r) && Install(f, r, d).Some?
    ensures Inv(f, Install(f, r, d).value) && Later(r, Install(f, r, d).value)
  {
    MaxIsLength(r.rows);
    hide Valid, Readable, Inv, Later;
    AppendKeeps(f, r, Read(d).value, GenerationId(|r.rows| + 1, Read(d).value));
  }

  lemma StepKeeps(f: Formats, r: Registry, l: Label)
    requires Inv(f, r)
    ensures Inv(f, Step(f, r, l).GetOr(r)) && Later(r, Step(f, r, l).GetOr(r))
  {
    hide Valid, Edit, Install;
    match l
    case Configure(d) => if Install(f, r, d).Some? { InstallKeeps(f, r, d); }
    case Command_(c) =>
      if Apply(f, r, c).Some? { InstallKeeps(f, r, Staged(Edit(f, r.files[r.current.value], c).files)); }
    case NewThread(t) =>
  }

  lemma LaterTransitive(r: Registry, s: Registry, t: Registry)
    requires Later(r, s) && Later(s, t)
    ensures Later(r, t)
  {
  }

  lemma {:induction false} PlayKeeps(f: Formats, r: Registry, run: seq<Label>)
    requires Inv(f, r)
    ensures Inv(f, Play(f, r, run)) && Later(r, Play(f, r, run))
    decreases |run|
  {
    hide Inv, Later;
    if run == [] {
      SameLater(r);
    } else {
      var s := Step(f, r, run[0]).GetOr(r);
      StepKeeps(f, r, run[0]);
      PlayKeeps(f, s, run[1..]);
      LaterTransitive(r, s, Play(f, s, run[1..]));
    }
  }

  lemma SameLater(r: Registry)
    ensures Later(r, r)
  {
  }

  /** A thread's bound generation, and the files of that generation, never change over any run. */
  lemma ThreadBinding(f: Formats, run: seq<Label>, more: seq<Label>, t: string)
    requires t in Play(f, UNCONFIGURED, run).threads
    ensures var r := Play(f, UNCONFIGURED, run);
      var s := Play(f, r, more);
      && t in s.threads && s.threads[t] == r.threads[t]
      && (r.threads[t].Some? ==>
            var g := r.threads[t].value; g in r.files && g in s.files && s.files[g] == r.files[g] && Valid(f, s.files[g]))
  {
    hide Valid;
    PlayKeeps(f, UNCONFIGURED, run);
    PlayKeeps(f, Play(f, UNCONFIGURED, run), more);
  }

  // ------------------------------------------------------------------ round trip

  /** Reading a staged bundle gives its files back exactly when every file and the whole bundle respect the limits. */
  lemma StagedContents(files: Files)
    ensures Contents(Staged(files)) == files
    ensures Read(Staged(files)) == if Readable(Staged(files)) then Some(files) else None
  {
  }

  lemma EmptySound(f: Formats)
    ensures Inv(f, UNCONFIGURED)
  {
  }

  lemma CurrentSound(f: Formats, r: Registry)
    requires Inv(f, r) && r.current.Some? && r.current.value in r.files
    ensures r.current.value.digest == r.files[r.current.value] && Valid(f, r.files[r.current.value])
  {
    hide Valid;
  }

  lemma ValidParts(f: Formats, files: Files)
    requires Valid(f, files)
    ensures SkillsOk(f, files) && ScriptsOk(f, files) && NoCollision(f, files) && WorkflowOk(f, files)
  {
  }

  /** Installing a staged file map adds it under the next number, or is refused because it is not valid. */
  lemma Installed(f: Formats, r: Registry, files: Files)
    requires Inv(f, r)
    ensures var id := GenerationId(|r.rows| + 1, files);
      Install(f, r, Staged(files)) ==
      if Valid(f, files) then Some(r.(rows := r.rows + [id], files := r.files[id := files], current := Some(id))) else None
  {
    MaxIsLength(r.rows);
    StagedContents(files);
    hide Inv, SkillsOk, ScriptsOk, NoCollision, WorkflowOk, Readable, Staged, Contents;
  }

  /** Materializing any generation of any run and installing it again always succeeds, and reproduces its files and its
      digest under the next number. */
  lemma Reinstall(f: Formats, run: seq<Label>, g: GenerationId)
    requires g in Play(f, UNCONFIGURED, run).files
    ensures var r := Play(f, UNCONFIGURED, run);
      var s := Install(f, r, Staged(r.files[g]));
      && Read(Staged(r.files[g])) == Some(r.files[g])
      && s.Some? && s.value.current == Some(GenerationId(|r.rows| + 1, g.digest)) && s.value.files[s.value.current.value] == r.files[g]
  {
    hide Inv, Later, SkillsOk, ScriptsOk, NoCollision, WorkflowOk, Readable, Play, Install;
    var r := Play(f, UNCONFIGURED, run);
    EmptySound(f);
    PlayKeeps(f, UNCONFIGURED, run);
    GenerationSound(f, r, g);
    StagedContents(r.files[g]);
    Installed(f, r, r.files[g]);
  }

  lemma GenerationSound(f: Formats, r: Registry, g: GenerationId)
    requires Inv(f, r) && g in r.files
    ensures g.digest == r.files[g] && Valid(f, r.files[g]) && Readable(Staged(r.files[g]))
  {
  }

  // ------------------------------------------------------------------ the size of a bundle

  lemma {:induction false} TotalMinus(files: Files, p: Path)
    requires p in files
    ensures Total(files) == |files[p]| + Total(files - {p})
    decreases |files|
  {
    var q :| q in files && Total(files) == |files[q]| + Total(files - {q});
    if q != p {
      TotalMinus(files - {q}, p);
      TotalMinus(files - {p}, q);
      assert files - {q} - {p} == files - {p} - {q};
    }
  }

  lemma {:induction false} SmallerTotal(few: Files, files: Files)
    requires few.Keys <= files.Keys && forall p :: p in few ==> few[p] == files[p]
    ensures Total(few) <= Total(files)
    decreases |files|
  {
    if few == files {
    } else {
      var p :| p in files && p !in few;
      TotalMinus(files, p);
      SmallerTotal(few, files - {p});
    }
  }
}
