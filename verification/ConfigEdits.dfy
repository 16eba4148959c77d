/** What the operator's focused edits do to a bundle: which subtree they reach, what undoes them, and what a removal needs. */
module ConfigEdits {
  import opened Prelude
  import opened ConfigPaths
  import opened Config

  // ------------------------------------------------------------------ an edit stays in its subtree

  /** The name an added tool registers. */
  predicate AddsName(f: Formats, tree: Files, name: string) {
    [TOOL_FILE] in tree && f.nameOf(tree[[TOOL_FILE]]) == Some(name)
  }

  /** The subtree a command is meant to touch: the entry of its name, and for a tool what registered the name before. */
  ghost predicate Touches(f: Formats, files: Files, c: Command, p: Path) {
    match c
    case SetWorkflow(_) => p == WORKFLOW
    case SetMcp(_) => p == MCP_SERVERS
    case AddSkill(name, _, _) => Below(SKILLS + [name], p)
    case RemoveSkill(name) => Below(SKILLS + [name], p)
    case AddTool(dir, tree, _) =>
      Below(SCRIPTS + [dir], p) ||
      exists name, d :: AddsName(f, tree, name) && Registers(f, files, d, name) && Below(SCRIPTS + [d], p)
    case RemoveTool(name) => exists d :: Registers(f, files, d, name) && Below(SCRIPTS + [d], p)
  }

  ghost predicate SameOutside(f: Formats, files: Files, c: Command, edited: Files) {
    forall p :: !Touches(f, files, c, p) ==> (p in edited <==> p in files) && (p in files && p in edited ==> edited[p] == files[p])
  }

  /** What a command leaves in its subtree: exactly the new content, or nothing. */
  ghost predicate Wrote(f: Formats, files: Files, c: Command, edited: Files) {
    forall p :: Touches(f, files, c, p) ==> WroteAt(c, p, edited)
  }

  predicate WroteAt(c: Command, p: Path, edited: Files) {
    match c
    case SetWorkflow(content) => p in edited && edited[p] == content
    case SetMcp(content) => p in edited && edited[p] == content
    case AddSkill(name, tree, _) => CopiedAt(SKILLS + [name], tree, p, edited)
    case RemoveSkill(_) => p !in edited
    case AddTool(dir, tree, _) => CopiedAt(SCRIPTS + [dir], tree, p, edited)
    case RemoveTool(_) => p !in edited
  }

  /** The copied tree, and nothing else, is at `p`. */
  predicate CopiedAt(d: Path, tree: Files, p: Path, edited: Files) {
    (p in edited <==> d <= p && p[|d|..] in tree) && (p in edited && d <= p && p[|d|..] in tree ==> edited[p] == tree[p[|d|..]])
  }

  /** The names under which a command finds its own entry: single ordinary components. */
  predicate PlainName(c: Command) {
    match c
    case RemoveSkill(name) => Ordinary(name)
    case AddTool(dir, _, _) => Ordinary(dir)
    case _ => true
  }

  lemma DirectoryFound(f: Formats, files: Files, name: string)
    requires ScriptsOk(f, files)
    ensures match DirectoryOf(f, files, name)
            case None => forall d :: !Registers(f, files, d, name)
            case Some(dir) => forall d :: Registers(f, files, d, name) <==> d == dir
  {
  }

  /** An ordinary skill name leads to the skill's own directory. */
  lemma OrdinaryPlace(f: Formats, files: Files, name: string)
    requires Ordinary(name)
    ensures Edit(f, files, RemoveSkill(name)) == if SkillDir(files, name) then Edited(Without(files, SKILLS + [name])) else Refused
  {
    OrdinaryParts(name);
    WalkOne(files, SKILLS, name);
    hide Parts, Walk, Ordinary;
    if SkillDir(files, name) {
      var p :| p in files && Below(SKILLS + [name], p);
      assert Below(SKILLS, p) by { assert p[..1] == (p[..2])[..1]; }
      assert IsDir(files, SKILLS);
    }
  }

  lemma SkillEditInside(f: Formats, files: Files, c: Command)
    requires (c.SetWorkflow? || c.SetMcp? || c.AddSkill?) && Edit(f, files, c).Edited?
    ensures SameOutside(f, files, c, Edit(f, files, c).files) && Wrote(f, files, c, Edit(f, files, c).files)
  {
    if c.AddSkill? {
      CopyInside(files, SKILLS + [c.name], c.tree);
      hide With, Without;
    }
  }

  /** Replacing a directory by a copied tree changes that directory alone. */
  lemma CopyInside(files: Files, d: Path, tree: Files)
    requires d !in files && [] !in tree
    ensures var edited := With(Without(files, d), d, tree);
      && (forall p :: Below(d, p) ==> CopiedAt(d, tree, p, edited))
      && (forall p :: !Below(d, p) ==> (p in edited <==> p in files) && (p in files && p in edited ==> edited[p] == files[p]))
  {
    var edited := With(Without(files, d), d, tree);
    forall p ensures Below(d, p) ==> CopiedAt(d, tree, p, edited)
      ensures !Below(d, p) ==> (p in edited <==> p in files) && (p in files && p in edited ==> edited[p] == files[p])
    {
      WithAt(Without(files, d), d, tree, p);
      assert d <= p && !Below(d, p) ==> p[|d|..] == [];
    }
  }

  /** Removing a directory changes that directory alone. */
  lemma RemovalInside(files: Files, d: Path)
    ensures forall p :: Below(d, p) ==> p !in Without(files, d)
    ensures forall p :: !Below(d, p) ==> (p in Without(files, d) <==> p in files)
    ensures forall p :: p in Without(files, d) ==> Without(files, d)[p] == files[p]
  {
  }

  lemma RemoveToolInside(f: Formats, files: Files, name: string)
    requires ScriptsOk(f, files) && Edit(f, files, RemoveTool(name)).Edited?
    ensures var edited := Edit(f, files, RemoveTool(name)).files;
      SameOutside(f, files, RemoveTool(name), edited) && Wrote(f, files, RemoveTool(name), edited)
  {
    DirectoryFound(f, files, name);
    var dir := DirectoryOf(f, files, name).value;
    RemovalInside(files, SCRIPTS + [dir]);
    hide ScriptsOk, Registers, DirectoryOf, Without, Below;
  }

  /** A tool under an ordinary directory name: what registered the name goes, and the copied tree is all there is. */
  lemma AddToolInside(f: Formats, files: Files, c: Command)
    requires c.AddTool? && PlainName(c) && ScriptsOk(f, files) && Edit(f, files, c).Edited?
    ensures SameOutside(f, files, c, Edit(f, files, c).files) && Wrote(f, files, c, Edit(f, files, c).files)
  {
    var name, d := f.nameOf(c.tree[[TOOL_FILE]]).value, SCRIPTS + [c.dir];
    DirectoryFound(f, files, name);
    var cleared := Cleared(f, files, name);
    ClearedInside(f, files, name);
    CopyInside(cleared, d, c.tree);
    hide ScriptsOk, Registers, DirectoryOf, Cleared, With, Without, Below, HasScript;
    var edited := Edit(f, files, c).files;
    forall p | Touches(f, files, c, p) ensures WroteAt(c, p, edited) {
      if !Below(d, p) { EntriesApart(f, files, c, name, p, cleared, edited); }
    }
  }

  lemma ClearedInside(f: Formats, files: Files, name: string)
    requires ScriptsOk(f, files)
    ensures var cleared := Cleared(f, files, name);
      && (forall p :: (exists d :: Registers(f, files, d, name) && Below(SCRIPTS + [d], p)) ==> p !in cleared)
      && (forall p :: !(exists d :: Registers(f, files, d, name) && Below(SCRIPTS + [d], p)) ==> (p in cleared <==> p in files))
      && (forall p :: p in cleared ==> p in files && cleared[p] == files[p])
  {
    DirectoryFound(f, files, name);
    var existing := DirectoryOf(f, files, name);
    if existing.Some? { RemovalInside(files, SCRIPTS + [existing.value]); }
    hide ScriptsOk, Registers, DirectoryOf, Without, Below, HasScript;
  }

  /** Where only the old directory of the tool was, nothing is left. */
  lemma EntriesApart(f: Formats, files: Files, c: Command, name: string, p: Path, cleared: Files, edited: Files)
    requires c.AddTool? && AddsName(f, c.tree, name) && Touches(f, files, c, p) && !Below(SCRIPTS + [c.dir], p)
    requires (exists d :: Registers(f, files, d, name) && Below(SCRIPTS + [d], p)) ==> p !in cleared
    requires p in edited <==> p in cleared
    ensures WroteAt(c, p, edited)
  {
    hide Registers;
    var n, d :| AddsName(f, c.tree, n) && Registers(f, files, d, n) && Below(SCRIPTS + [d], p);
    assert n == name && |p| > 3;
  }

  /** Removing a skill by a name that is not one component reaches somewhere else. */
  lemma NestedNameReachesOut(f: Formats, files: Files, name: string)
    requires IsTree(files.Keys) && !Ordinary(name) && Edit(f, files, RemoveSkill(name)).Edited?
    ensures !SameOutside(f, files, RemoveSkill(name), Edit(f, files, RemoveSkill(name)).files)
  {
    NoSuchEntry(files, name);
    hide Walk, Parts, IsTree, Ordinary;
    var edited := Edit(f, files, RemoveSkill(name)).files;
    var place := Walk(files, SKILLS, Parts(name), {});
    var p :| p in files && Below(place.path, p);
    assert p !in edited && !Touches(f, files, RemoveSkill(name), p);
  }

  lemma NoSuchEntry(files: Files, name: string)
    requires IsTree(files.Keys) && !Ordinary(name)
    ensures forall p :: p in files ==> !Below(SKILLS + [name], p)
  {
    forall p | p in files ensures |p| > 1 ==> Ordinary(p[1]) {}
    forall p: Path | Below(SKILLS + [name], p) ensures |p| > 1 && p[1] == name { EntryName(SKILLS, name, p); }
  }

  /** No copy of the tool's document lies loose beside the script directories already. */
  predicate NoLooseCopy(files: Files, c: Command) {
    c.AddTool? && [TOOL_FILE] in c.tree ==>
      SCRIPTS + [TOOL_FILE] !in files || files[SCRIPTS + [TOOL_FILE]] != c.tree[[TOOL_FILE]]
  }

  /** An empty directory name spills the tool beside the script directories. */
  lemma EmptyNameSpills(f: Formats, files: Files, c: Command)
    requires c.AddTool? && !Ordinary(c.dir) && NoLooseCopy(files, c) && Edit(f, files, c).Edited?
    ensures !SameOutside(f, files, c, Edit(f, files, c).files)
  {
    var loose := SCRIPTS + [TOOL_FILE];
    assert c.dir == "";
    assert loose[2..] == [TOOL_FILE];
    WithAt(Without(Cleared(f, files, f.nameOf(c.tree[[TOOL_FILE]]).value), SCRIPTS), SCRIPTS, c.tree, loose);
    hide With, Without, Cleared, Registers;
    assert !Touches(f, files, c, loose);
  }

  /** A command stays inside its own subtree exactly when the name it was given is one ordinary path component; there it
      leaves exactly the new content. */
  lemma EditStaysInside(f: Formats, files: Files, c: Command)
    requires IsTree(files.Keys) && ScriptsOk(f, files) && NoLooseCopy(files, c) && Edit(f, files, c).Edited?
    ensures SameOutside(f, files, c, Edit(f, files, c).files) <==> PlainName(c)
    ensures PlainName(c) ==> Wrote(f, files, c, Edit(f, files, c).files)
  {
    hide SameOutside, Wrote, ScriptsOk, NoLooseCopy, Edit, IsTree, Ordinary;
    match c
    case RemoveSkill(name) =>
      if Ordinary(name) { RemoveSkillInside(f, files, name); } else { NestedNameReachesOut(f, files, name); }
    case AddTool(dir, _, _) => if Ordinary(dir) { AddToolInside(f, files, c); } else { EmptyNameSpills(f, files, c); }
    case RemoveTool(name) => RemoveToolInside(f, files, name);
    case _ => SkillEditInside(f, files, c);
  }

  lemma RemoveSkillInside(f: Formats, files: Files, name: string)
    requires Ordinary(name) && Edit(f, files, RemoveSkill(name)).Edited?
    ensures var edited := Edit(f, files, RemoveSkill(name)).files;
      SameOutside(f, files, RemoveSkill(name), edited) && Wrote(f, files, RemoveSkill(name), edited)
  {
    OrdinaryPlace(f, files, name);
    RemovalInside(files, SKILLS + [name]);
    hide Edit, Without, Below;
  }

  // ------------------------------------------------------------------ names that reach elsewhere

  /** A nested name removes a part of a skill. */
  lemma NestedNameRemoves(f: Formats, files: Files, a: string, b: string)
    requires Ordinary(a) && Ordinary(b)
    ensures Edit(f, files, RemoveSkill(a + "/" + b)) ==
      if IsDir(files, SKILLS + [a] + [b]) then Edited(Without(files, SKILLS + [a] + [b])) else Refused
  {
    PartsFirst(a, b);
    OrdinaryParts(b);
    assert [a] + [b] == [a, b];
    WalkTwo(files, SKILLS, a, b);
    DeepDir(files, SKILLS, a, b);
    assert !Below(SKILLS + [a] + [b], SKILLS) && !Below(SKILLS + [a] + [b], SKILLS + [a]);
    hide Parts, Walk, Ordinary, IsDir, Below;
  }

  lemma DeepDir(files: Files, d: Path, a: string, b: string)
    ensures IsDir(files, d + [a] + [b]) ==> IsDir(files, d + [a])
    ensures IsDir(files, d + [a]) ==> IsDir(files, d)
  {
    if IsDir(files, d + [a] + [b]) {
      var p :| p in files && Below(d + [a] + [b], p);
      assert p[..|d| + 1] == p[..|d| + 2][..|d| + 1] == d + [a];
      assert Below(d + [a], p);
    }
    if IsDir(files, d + [a]) {
      var p :| p in files && Below(d + [a], p);
      assert p[..|d|] == p[..|d| + 1][..|d|] == d;
      assert Below(d, p);
    }
  }

  const MCP_NAME := ".." + "/" + ("tools" + "/" + "mcp")

  /** A name that climbs out of the skills reaches the MCP subtree. */
  lemma ClimbingNameRemoves(f: Formats, files: Files)
    requires IsDir(files, SKILLS) && IsDir(files, MCP)
    ensures Edit(f, files, RemoveSkill(MCP_NAME)) == Edited(Without(files, MCP))
  {
    ClimbingParts();
    DeepDir(files, [], "tools", "mcp");
    assert [] + ["tools"] + ["mcp"] == MCP && [] + ["tools"] == ["tools"];
    ClimbingWalk(files);
    assert !Below(MCP, SKILLS) && !Below(MCP, []) && !Below(MCP, ["tools"]);
    var name := MCP_NAME;
    hide Parts, Walk, IsDir, Below, Absolute, Without;
    assert Walk(files, SKILLS, Parts(name), {}) == At(MCP, {SKILLS, [], ["tools"]});
  }

  lemma ClimbingParts()
    ensures MCP_NAME == "../tools/mcp" && Parts(MCP_NAME) == ["..", "tools", "mcp"] && !Absolute(MCP_NAME)
  {
    PartsFirst("..", "tools" + "/" + "mcp");
    PartsFirst("tools", "mcp");
    OrdinaryParts("mcp");
    hide Parts;
    assert [".."] + (["tools"] + ["mcp"]) == ["..", "tools", "mcp"];
  }

  lemma ClimbingWalk(files: Files)
    requires IsDir(files, ["tools"])
    ensures Walk(files, SKILLS, ["..", "tools", "mcp"], {}) == At(MCP, {SKILLS, [], ["tools"]})
  {
    assert ["..", "tools", "mcp"][1..] == ["tools", "mcp"] && ["tools", "mcp"][1..] == ["mcp"] && ["mcp"][1..] == [];
    assert SKILLS[..0] == [] && [] + ["tools"] == ["tools"] && ["tools"] + ["mcp"] == MCP;
    assert {} + {SKILLS} == {SKILLS} && {SKILLS} + {[]} == {SKILLS, []} && {SKILLS, []} + {["tools"]} == {SKILLS, [], ["tools"]};
    assert Walk(files, SKILLS, ["..", "tools", "mcp"], {}) == Walk(files, [], ["tools", "mcp"], {SKILLS});
    assert Walk(files, [], ["tools", "mcp"], {SKILLS}) == Walk(files, ["tools"], ["mcp"], {SKILLS, []});
    assert Walk(files, ["tools"], ["mcp"], {SKILLS, []}) == Walk(files, MCP, [], {SKILLS, [], ["tools"]});
  }

  // ------------------------------------------------------------------ a removal undoes an addition

  /** Removing a skill that was not there before brings the file map back. */
  lemma RemoveAddedSkill(f: Formats, files: Files, name: string, tree: Files, replace: bool)
    requires !SkillDir(files, name) && Edit(f, files, AddSkill(name, tree, replace)).Edited?
    ensures Edit(f, Edit(f, files, AddSkill(name, tree, replace)).files, RemoveSkill(name)) == Edited(files)
  {
    var d, edited := SKILLS + [name], Edit(f, files, AddSkill(name, tree, replace)).files;
    LegalIsOrdinary(name);
    OrdinaryPlace(f, edited, name);
    CopyInside(files, d, tree);
    WithAt(Without(files, d), d, tree, d + [SKILL_FILE]);
    assert (d + [SKILL_FILE])[|d|..] == [SKILL_FILE];
    assert Below(d, d + [SKILL_FILE]) && IsDir(edited, d);
    RemovalInside(edited, d);
    hide With, Without, Below, Edit;
    RestoredFiles(files, edited, d);
  }

  lemma RestoredFiles(files: Files, edited: Files, d: Path)
    requires !IsDir(files, d)
    requires forall p :: !Below(d, p) ==> (p in edited <==> p in files) && (p in files && p in edited ==> edited[p] == files[p])
    ensures Without(edited, d) == files
  {
    forall p ensures p in Without(edited, d) <==> p in files { if p in files { assert !Below(d, p); } }
    assert forall p :: p in files ==> Without(edited, d)[p] == files[p];
  }

  /** And nothing can reference it: the workflow was accepted without it. */
  lemma AddedSkillUnreferenced(f: Formats, files: Files, name: string, tree: Files, replace: bool)
    requires WorkflowOk(f, files) && !SkillDir(files, name) && Edit(f, files, AddSkill(name, tree, replace)).Edited?
    ensures Guard(f, Edit(f, files, AddSkill(name, tree, replace)).files, RemoveSkill(name))
  {
    var d := SKILLS + [name];
    CopyInside(files, d, tree);
    assert !Below(d, WORKFLOW);
    hide With, Without, Below, SkillDir, IsDir;
  }

  /** Adding a skill that was not installed and removing it again is never refused, and ends with the original bundle
      under a new number. */
  lemma UndoSkill(f: Formats, run: seq<Label>, name: string, tree: Files, replace: bool)
    requires var r := Play(f, UNCONFIGURED, run);
      && r.current.Some? && r.current.value in r.files && !SkillDir(r.files[r.current.value], name)
      && Apply(f, r, AddSkill(name, tree, replace)).Some?
    ensures var r := Play(f, UNCONFIGURED, run);
      var s := Apply(f, Apply(f, r, AddSkill(name, tree, replace)).value, RemoveSkill(name));
      s.Some? && s.value.current == Some(GenerationId(|r.rows| + 2, r.current.value.digest))
  {
    hide Valid, Inv, Later, SkillsOk, ScriptsOk, NoCollision, WorkflowOk, Play, Edit, Guard, Install, SkillDir;
    var r := Play(f, UNCONFIGURED, run);
    var files := r.files[r.current.value];
    EmptySound(f);
    PlayKeeps(f, UNCONFIGURED, run);
    CurrentSound(f, r);
    ValidParts(f, files);
    RemoveAddedSkill(f, files, name, tree, replace);
    AddedSkillUnreferenced(f, files, name, tree, replace);
    Undone(f, r, AddSkill(name, tree, replace), RemoveSkill(name));
  }

  /** A command that went through edited the current files into a valid bundle. */
  lemma ApplyEdits(f: Formats, r: Registry, c: Command)
    requires r.current.Some? && r.current.value in r.files && Apply(f, r, c).Some?
    ensures match Edit(f, r.files[r.current.value], c)
            case Edited(edited) => NoCollision(f, edited) && Valid(f, edited)
            case _ => false
  {
    StagedContents(Edit(f, r.files[r.current.value], c).files);
    hide Edit, Guard, SkillsOk, ScriptsOk, NoCollision, WorkflowOk, Readable;
  }

  /** After a command, a second one ends with the original digest under the next number exactly when it edits the files
      back and the guard lets it. */
  lemma Undone(f: Formats, r: Registry, c: Command, undo: Command)
    requires Inv(f, r) && r.current.Some? && r.current.value in r.files && Apply(f, r, c).Some?
    ensures var files := r.files[r.current.value];
      var s := Apply(f, Apply(f, r, c).value, undo);
      Edit(f, files, c).Edited? &&
      (s.Some? && s.value.current == Some(GenerationId(|r.rows| + 2, r.current.value.digest)) <==>
       Guard(f, Edit(f, files, c).files, undo) && Edit(f, Edit(f, files, c).files, undo) == Edited(files))
  {
    hide Inv, Later, Edit, Guard, Valid, Staged, Install;
    var files := r.files[r.current.value];
    var edited, a := Edit(f, files, c).files, Apply(f, r, c).value;
    StepKeeps(f, r, Command_(c));
    CurrentSound(f, r);
    Installed(f, r, edited);
    var back := Edit(f, edited, undo);
    if back.Edited? { Installed(f, a, back.files); }
  }

  // ------------------------------------------------------------------ tools

  /** A tool added where nothing was: the copied tree is all that is new. */
  lemma AddedTree(f: Formats, files: Files, dir: string, tree: Files, name: string, replace: bool)
    requires AddsName(f, tree, name) && !HasScript(f, files, name) && !Exists(files, ToolTarget(dir))
    requires Edit(f, files, AddTool(dir, tree, replace)).Edited?
    ensures Edit(f, files, AddTool(dir, tree, replace)) == Edited(With(Without(files, ToolTarget(dir)), ToolTarget(dir), tree))
    ensures ToolTarget(dir) !in files && [] !in tree && SourceName(dir) && dir != ".."
  {
    hide HasScript, Registers, With, Without;
  }

  lemma RemoveAddedTool(f: Formats, files: Files, dir: string, tree: Files, name: string, replace: bool)
    requires Ordinary(dir) && AddsName(f, tree, name) && !HasScript(f, files, name) && !Exists(files, ToolTarget(dir))
    requires Edit(f, files, AddTool(dir, tree, replace)).Edited?
    ensures Registers(f, Edit(f, files, AddTool(dir, tree, replace)).files, dir, name)
    ensures Edit(f, Edit(f, files, AddTool(dir, tree, replace)).files, RemoveTool(name)) == Edited(files)
  {
    AddedTree(f, files, dir, tree, name, replace);
    var d, edited := SCRIPTS + [dir], Edit(f, files, AddTool(dir, tree, replace)).files;
    CopyInside(files, d, tree);
    assert (d + [TOOL_FILE])[|d|..] == [TOOL_FILE];
    WithAt(Without(files, d), d, tree, d + [TOOL_FILE]);
    hide With, Without, Edit;
    assert Registers(f, edited, dir, name);
    forall other | other != dir ensures Registers(f, edited, other, name) <==> Registers(f, files, other, name) {
      OtherEntry(SCRIPTS, dir, other, TOOL_FILE);
    }
    assert DirectoryOf(f, edited, name) == Some(dir) by { hide Below, IsDir; }
    RestoredFiles(files, edited, d);
    ToolRemoval(f, edited, name, dir);
  }

  lemma OtherEntry(d: Path, dir: string, other: string, file: string)
    requires dir != other
    ensures !Below(d + [dir], d + [other] + [file])
  {
    assert (d + [other] + [file])[..|d| + 1] == d + [other];
    assert (d + [other])[|d|] == other && (d + [dir])[|d|] == dir;
  }

  lemma ToolRemoval(f: Formats, files: Files, name: string, dir: string)
    requires DirectoryOf(f, files, name) == Some(dir)
    ensures Edit(f, files, RemoveTool(name)) == Edited(Without(files, SCRIPTS + [dir]))
  {
  }

  lemma ApartFromTools(dir: string)
    ensures !Below(ToolTarget(dir), WORKFLOW) && !Below(ToolTarget(dir), MCP_SERVERS)
  {
    assert "mcp"[0] != "scripts"[0] && MCP_SERVERS[1] == "mcp" && ToolTarget(dir)[1] == "scripts";
    Apart(ToolTarget(dir), MCP_SERVERS, 1);
  }

  lemma Apart(d: Path, p: Path, i: nat)
    requires i < |d| && i < |p| && p[i] != d[i]
    ensures !Below(d, p)
  {
    if |d| < |p| { assert p[..|d|][i] == p[i]; }
  }

  lemma AddedToolUnreferenced(f: Formats, files: Files, dir: string, tree: Files, name: string, replace: bool)
    requires AddsName(f, tree, name) && !HasScript(f, files, name) && !Exists(files, ToolTarget(dir))
    requires WorkflowOk(f, files) && Edit(f, files, AddTool(dir, tree, replace)).Edited?
    requires NoCollision(f, Edit(f, files, AddTool(dir, tree, replace)).files)
    requires HasScript(f, Edit(f, files, AddTool(dir, tree, replace)).files, name)
    ensures Guard(f, Edit(f, files, AddTool(dir, tree, replace)).files, RemoveTool(name))
  {
    AddedTree(f, files, dir, tree, name, replace);
    CopyInside(files, ToolTarget(dir), tree);
    ApartFromTools(dir);
    hide With, Without, Below, Edit, Exists, IsDir, Registers, SkillDir, HasScript;
  }

  /** A tool spilled beside the script directories is never taken back: its document stays. */
  lemma SpilledToolStays(f: Formats, files: Files, tree: Files, name: string, replace: bool)
    requires AddsName(f, tree, name) && !HasScript(f, files, name) && !Exists(files, ToolTarget(""))
    requires IsTree(tree.Keys) && Edit(f, files, AddTool("", tree, replace)).Edited?
    ensures Edit(f, Edit(f, files, AddTool("", tree, replace)).files, RemoveTool(name)) != Edited(files)
  {
    AddedTree(f, files, "", tree, name, replace);
    var edited, loose := Edit(f, files, AddTool("", tree, replace)).files, SCRIPTS + [TOOL_FILE];
    assert loose[2..] == [TOOL_FILE] && Below(SCRIPTS, loose);
    assert loose !in files;
    WithAt(Without(files, SCRIPTS), SCRIPTS, tree, loose);
    hide With, Without, Edit, IsTree;
    var dir := DirectoryOf(f, edited, name);
    if dir.Some? {
      ToolRemoval(f, edited, name, dir.value);
      RemovalInside(edited, SCRIPTS + [dir.value]);
    } else {
      assert Edit(f, edited, RemoveTool(name)) == Refused by { NothingRegistered(f, edited, name); }
    }
  }

  lemma NothingRegistered(f: Formats, files: Files, name: string)
    requires DirectoryOf(f, files, name) == None
    ensures Edit(f, files, RemoveTool(name)) == Refused
  {
  }

  /** The same holds of a tool exactly when its directory name is one ordinary component: then its name cannot have been a
      builtin or an MCP tool either, or the addition was refused. From the current directory, whose name is empty, it never
      comes back. */
  lemma UndoTool(f: Formats, run: seq<Label>, dir: string, tree: Files, name: string, replace: bool)
    requires IsTree(tree.Keys) && AddsName(f, tree, name)
    requires var r := Play(f, UNCONFIGURED, run);
      && r.current.Some? && r.current.value in r.files
      && !HasScript(f, r.files[r.current.value], name) && !Exists(r.files[r.current.value], ToolTarget(dir))
      && Apply(f, r, AddTool(dir, tree, replace)).Some?
    ensures var r := Play(f, UNCONFIGURED, run);
      var s := Apply(f, Apply(f, r, AddTool(dir, tree, replace)).value, RemoveTool(name));
      s.Some? && s.value.current == Some(GenerationId(|r.rows| + 2, r.current.value.digest)) <==> Ordinary(dir)
  {
    hide Valid, Inv, Later, SkillsOk, ScriptsOk, NoCollision, WorkflowOk, Play, Edit, Guard, Install, Exists, Registers, IsTree;
    var r := Play(f, UNCONFIGURED, run);
    var files := r.files[r.current.value];
    EmptySound(f);
    PlayKeeps(f, UNCONFIGURED, run);
    CurrentSound(f, r);
    ValidParts(f, files);
    ApplyEdits(f, r, AddTool(dir, tree, replace));
    Undone(f, r, AddTool(dir, tree, replace), RemoveTool(name));
    AddedTree(f, files, dir, tree, name, replace);
    if Ordinary(dir) {
      RemoveAddedTool(f, files, dir, tree, name, replace);
      AddedToolUnreferenced(f, files, dir, tree, name, replace);
    } else {
      assert dir == "";
      SpilledToolStays(f, files, tree, name, replace);
    }
  }

  /** With an empty directory name, `--replace` removes every other script tool. */
  lemma EmptyNameClears(f: Formats, files: Files, tree: Files, replace: bool)
    requires Edit(f, files, AddTool("", tree, replace)).Edited?
    ensures forall p :: p in Edit(f, files, AddTool("", tree, replace)).files && Below(SCRIPTS, p) ==> p[2..] in tree
  {
    var name := f.nameOf(tree[[TOOL_FILE]]).value;
    var edited := Edit(f, files, AddTool("", tree, replace)).files;
    forall p | p in edited && Below(SCRIPTS, p) ensures p[2..] in tree {
      WithAt(Without(Cleared(f, files, name), SCRIPTS), SCRIPTS, tree, p);
    }
  }

  // ------------------------------------------------------------------ what a removal needs

  lemma StillReadable(few: Files, files: Files)
    requires few.Keys <= files.Keys && forall p :: p in few ==> few[p] == files[p]
    requires Readable(Staged(files))
    ensures Readable(Staged(few))
  {
    StagedContents(files);
    StagedContents(few);
    SmallerTotal(few, files);
  }

  /** Removing a directory that does not reach another one leaves that one as it was. */
  lemma DirStays(files: Files, d: Path, e: Path)
    requires forall p :: Below(e, p) ==> !Below(d, p)
    ensures IsDir(Without(files, d), e) <==> IsDir(files, e)
  {
    if IsDir(files, e) {
      var p :| p in files && Below(e, p);
      assert p in Without(files, d);
    }
  }

  lemma DirGone(files: Files, d: Path)
    ensures !IsDir(Without(files, d), d)
  {
  }

  /** Two entries of one directory, or of two, have nothing in common. */
  lemma EntriesDisjoint(d: Path, a: string, e: Path, b: string)
    requires |d| == |e| && (d != e || a != b)
    ensures forall p :: Below(e + [b], p) ==> !Below(d + [a], p)
  {
    forall p | Below(e + [b], p) ensures !Below(d + [a], p) {
      assert p[..|e| + 1] == e + [b];
      assert (e + [b])[..|e|] == e && (d + [a])[..|d|] == d && (e + [b])[|e|] == b && (d + [a])[|d|] == a;
    }
  }

  lemma SkillStays(files: Files, name: string, dir: string)
    ensures SkillDir(Without(files, SKILLS + [name]), dir) <==> SkillDir(files, dir) && dir != name
  {
    if dir == name {
      DirGone(files, SKILLS + [name]);
    } else {
      EntriesDisjoint(SKILLS, name, SKILLS, dir);
      DirStays(files, SKILLS + [name], SKILLS + [dir]);
    }
  }

  /** Removing something among the skills leaves scripts, MCP and workflow as they were. */
  lemma ScriptsStay(f: Formats, files: Files, name: string)
    ensures var few := Without(files, SKILLS + [name]);
      && (ScriptsOk(f, files) ==> ScriptsOk(f, few)) && (NoCollision(f, files) ==> NoCollision(f, few))
      && (forall t :: HasScript(f, few, t) <==> HasScript(f, files, t)) && (forall t :: Mutates(f, few, t) <==> Mutates(f, files, t))
      && McpTools(f, few) == McpTools(f, files) && WorkflowIn(f, few) == WorkflowIn(f, files)
  {
    var few, d := Without(files, SKILLS + [name]), SKILLS + [name];
    assert d[0] == "skills" && "skills"[0] != "tools"[0] && "skills"[0] != "workflow.yaml"[0];
    forall p: Path | p != [] && p[0] != "skills" ensures !Below(d, p) { Apart(d, p, 0); }
    RemovalInside(files, d);
    hide Without, Below;
    forall dir, t ensures Registers(f, few, dir, t) <==> Registers(f, files, dir, t) { assert ToolDoc(dir)[0] == "tools"; }
    forall dir ensures ScriptDir(few, dir) <==> ScriptDir(files, dir) { ScriptDirStays(files, name, dir); }
    forall dir ensures ScriptOk(f, files, dir) ==> ScriptOk(f, few, dir) { ScriptOkStays(f, files, few, dir); }
  }

  lemma ScriptDirStays(files: Files, name: string, dir: string)
    ensures ScriptDir(Without(files, SKILLS + [name]), dir) <==> ScriptDir(files, dir)
  {
    forall p | Below(SCRIPTS + [dir], p) ensures !Below(SKILLS + [name], p) {
      assert p[0] == p[..3][0] == "tools" && "tools"[0] != "skills"[0];
      Apart(SKILLS + [name], p, 0);
    }
    DirStays(files, SKILLS + [name], SCRIPTS + [dir]);
  }

  lemma ScriptOkStays(f: Formats, files: Files, few: Files, dir: string)
    requires forall p: Path :: p != [] && p[0] == "tools" ==> (p in few <==> p in files) && (p in few && p in files ==> few[p] == files[p])
    ensures ScriptOk(f, files, dir) ==> ScriptOk(f, few, dir)
  {
    assert ToolDoc(dir)[0] == "tools";
    if ScriptOk(f, files, dir) {
      assert (SCRIPTS + [dir] + f.scriptOf(files[ToolDoc(dir)]).value.entrypoint)[0] == "tools";
    }
  }

  /** Of a valid bundle a skill can be removed by its own name exactly when it is installed, no workflow phase names it, and
      it is not the last one. */
  lemma RemoveSkillExactly(f: Formats, files: Files, name: string)
    requires Valid(f, files) && Ordinary(name)
    ensures (Guard(f, files, RemoveSkill(name)) && Edit(f, files, RemoveSkill(name)).Edited? &&
             Valid(f, Edit(f, files, RemoveSkill(name)).files)) <==>
      SkillDir(files, name) && name !in WorkflowIn(f, files).value.skills && exists other :: other != name && SkillDir(files, other)
  {
    var few := Without(files, SKILLS + [name]);
    OrdinaryPlace(f, files, name);
    forall d ensures SkillDir(few, d) <==> SkillDir(files, d) && d != name { SkillStays(files, name, d); }
    RemovalInside(files, SKILLS + [name]);
    StillReadable(few, files);
    ScriptsStay(f, files, name);
    forall d | d != name ensures SkillDoc(d) in few <==> SkillDoc(d) in files { OtherEntry(SKILLS, name, d, SKILL_FILE); }
    hide Readable, ScriptDir, ScriptsOk, NoCollision, SkillDir, HasScript, Mutates, Edit, Without, Below, Ordinary, LegalName;
  }

  /** Nothing but the MCP subtree lies below MCP. */
  lemma McpApart(p: Path)
    requires |p| > 1 ==> p[0] != "tools" || p[1] != "mcp"
    ensures !Below(MCP, p)
  {
    if |p| > 1 {
      if p[0] != "tools" { Apart(MCP, p, 0); } else { Apart(MCP, p, 1); }
    }
  }

  lemma SkillsKept(f: Formats, files: Files)
    ensures forall dir :: SkillDir(Without(files, MCP), dir) <==> SkillDir(files, dir)
    ensures forall dir :: SkillDoc(dir) in Without(files, MCP) <==> SkillDoc(dir) in files
    ensures SkillsOk(f, files) ==> SkillsOk(f, Without(files, MCP))
  {
    assert "skills"[0] != "tools"[0];
    forall dir ensures SkillDir(Without(files, MCP), dir) <==> SkillDir(files, dir) {
      forall p | Below(SKILLS + [dir], p) ensures !Below(MCP, p) {
        Prefix(SKILLS + [dir], p, 0);
        McpApart(p);
      }
      DirStays(files, MCP, SKILLS + [dir]);
    }
    forall dir ensures !Below(MCP, SkillDoc(dir)) { McpApart(SkillDoc(dir)); }
    hide SkillDir, Below, LegalName;
  }

  lemma Prefix(d: Path, p: Path, i: nat)
    requires Below(d, p) && i < |d|
    ensures p[i] == d[i]
  {
    assert p[i] == p[..|d|][i];
  }

  lemma ScriptsKept(f: Formats, files: Files)
    ensures var few := Without(files, MCP);
      && (ScriptsOk(f, files) ==> ScriptsOk(f, few)) && WorkflowIn(f, few) == WorkflowIn(f, files) && McpTools(f, few) == Some({})
      && (forall t :: HasScript(f, few, t) <==> HasScript(f, files, t)) && (forall t :: Mutates(f, few, t) <==> Mutates(f, files, t))
  {
    var few := Without(files, MCP);
    assert "scripts"[0] != "mcp"[0] && "workflow.yaml"[0] != "tools"[0];
    McpApart(WORKFLOW);
    assert Below(MCP, MCP_SERVERS);
    forall dir, rest ensures !Below(MCP, SCRIPTS + [dir] + rest) { McpApart(SCRIPTS + [dir] + rest); }
    RemovalInside(files, MCP);
    forall dir ensures ScriptDir(few, dir) <==> ScriptDir(files, dir) {
      forall p | Below(SCRIPTS + [dir], p) ensures !Below(MCP, p) {
        Prefix(SCRIPTS + [dir], p, 1);
        McpApart(p);
      }
      DirStays(files, MCP, SCRIPTS + [dir]);
    }
    hide Without, Below, ScriptDir;
    forall dir, t ensures Registers(f, few, dir, t) <==> Registers(f, files, dir, t) {
      assert ToolDoc(dir) == SCRIPTS + [dir] + [TOOL_FILE];
    }
    forall dir ensures ScriptOk(f, files, dir) ==> ScriptOk(f, few, dir) { assert ToolDoc(dir) == SCRIPTS + [dir] + [TOOL_FILE]; }
  }

  /** Removing a skill by the climbing name is let through by the guard and deletes the MCP subtree; the bundle without it
      is installed exactly when the workflow names no MCP tool. */
  lemma ClimbingRemovalExactly(f: Formats, files: Files)
    requires Valid(f, files) && IsDir(files, MCP)
    ensures Guard(f, files, RemoveSkill(MCP_NAME)) && Edit(f, files, RemoveSkill(MCP_NAME)) == Edited(Without(files, MCP))
    ensures Valid(f, Without(files, MCP)) <==>
      forall t :: t in WorkflowIn(f, files).value.tools ==> t in f.builtin || HasScript(f, files, t)
  {
    SkillsThere(f, files);
    ClimbingNameRemoves(f, files);
    RemovalInside(files, MCP);
    StillReadable(Without(files, MCP), files);
    SkillsKept(f, files);
    ScriptsKept(f, files);
    NotASkill(f, files);
    hide Readable, SkillsOk, ScriptsOk, SkillDir, HasScript, Mutates, Edit, Without, IsDir;
  }

  lemma SkillsThere(f: Formats, files: Files)
    requires SkillsOk(f, files)
    ensures IsDir(files, SKILLS)
  {
    var dir :| SkillDir(files, dir);
    var p :| p in files && Below(SKILLS + [dir], p);
    assert p[..1] == p[..2][..1] == SKILLS;
    assert Below(SKILLS, p);
  }

  lemma NotASkill(f: Formats, files: Files)
    requires SkillsOk(f, files) && WorkflowOk(f, files)
    ensures MCP_NAME !in WorkflowIn(f, files).value.skills
  {
    assert MCP_NAME[0] == '.';
    assert !LegalName(MCP_NAME);
    hide SkillDir, HasScript, Mutates;
  }
}
