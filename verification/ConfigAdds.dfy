/** When an operator's addition is accepted and what it leaves, read off the file paths. */
module ConfigAdds {
  import opened Prelude
  import opened ConfigPaths
  import opened Config
  import opened ConfigEdits

  /** Some file lies in the directory of the skill. */
  ghost predicate SkillInstalled(files: Files, name: string) {
    exists p :: p in files && |p| > 2 && p[0] == "skills" && p[1] == name
  }

  /** Some file lies in the script directory `dir`, or for an empty name anywhere among the scripts. */
  ghost predicate ScriptPresent(files: Files, dir: string) {
    exists p :: p in files && |p| > 2 && p[0] == "tools" && p[1] == "scripts" && (dir == "" || (|p| > 3 && p[2] == dir))
  }

  predicate NameLetter(c: char) { ('a' <= c && c <= 'z') || ('A' <= c && c <= 'Z') }

  /** A letter, then letters, digits, underscores, dots and dashes, at most 64 in all. */
  predicate SkillName(name: string) {
    && 1 <= |name| <= 64 && NameLetter(name[0])
    && forall i :: 0 < i < |name| ==>
         NameLetter(name[i]) || ('0' <= name[i] && name[i] <= '9') || name[i] == '_' || name[i] == '.' || name[i] == '-'
  }

  /** Every file of the source has a place of its own and between one and a million bytes. */
  predicate SourceReadable(tree: Files) { forall p :: p in tree ==> |p| > 0 && 1 <= |tree[p]| <= 1_000_000 }

  lemma SkillDirIs(files: Files, name: string)
    ensures SkillDir(files, name) <==> SkillInstalled(files, name)
  {
    forall p: Path ensures Below(SKILLS + [name], p) <==> |p| > 2 && p[0] == "skills" && p[1] == name {
      if |p| > 2 { assert p[..2] == [p[0], p[1]]; }
    }
  }

  /** Where a copied file of the source lies. */
  lemma UnderSkill(name: string, p: Path)
    ensures Below(SKILLS + [name], p) <==> |p| > 2 && p[0] == "skills" && p[1] == name
  {
    if |p| > 2 { assert p[..2] == [p[0], p[1]]; }
  }

  /** A skill can be added exactly when its name and source are in order and it is not installed yet, or is to be replaced. */
  lemma AddSkillExactly(f: Formats, files: Files, name: string, tree: Files, replace: bool)
    ensures Edit(f, files, AddSkill(name, tree, replace)).Edited? <==>
      && ["SKILL.md"] in tree && SourceReadable(tree) && SkillName(name) && f.skillOk(name, tree[["SKILL.md"]])
      && ["skills", name] !in files && (replace || !SkillInstalled(files, name))
  {
    SkillDirIs(files, name);
    assert SKILLS + [name] == ["skills", name];
    assert LegalName(name) <==> SkillName(name);
    assert SourceOk(tree) <==> SourceReadable(tree);
    hide SkillDir, SkillInstalled, LegalName, SkillName, SourceOk, SourceReadable, With, Without;
  }

  /** Its directory then holds the source and nothing else, and everything outside stays. */
  lemma AddSkillLeaves(f: Formats, files: Files, name: string, tree: Files, replace: bool, p: Path)
    requires Edit(f, files, AddSkill(name, tree, replace)).Edited?
    ensures var edited := Edit(f, files, AddSkill(name, tree, replace)).files;
      if |p| > 2 && p[0] == "skills" && p[1] == name then
        (p in edited <==> p[2..] in tree) && (p in edited ==> edited[p] == tree[p[2..]])
      else (p in edited <==> p in files) && (p in edited ==> edited[p] == files[p])
  {
    assert [] !in tree by { NoRoot(tree); }
    CopyInside(files, SKILLS + [name], tree);
    UnderSkill(name, p);
    if Below(SKILLS + [name], p) { assert SKILLS + [name] <= p; }
    hide With, Without, Below, SkillDir;
  }

  lemma NoRoot(tree: Files)
    requires SourceOk(tree)
    ensures [] !in tree
  {
  }

  lemma UnderScript(dir: string, p: Path)
    ensures Below(ToolTarget(dir), p) <==>
      |p| > 2 && p[0] == "tools" && p[1] == "scripts" && (dir == "" || (|p| > 3 && p[2] == dir))
  {
    if |p| > 2 { assert p[..2] == [p[0], p[1]]; }
    if |p| > 3 { assert p[..3] == [p[0], p[1], p[2]]; }
  }

  lemma ScriptPresentIs(files: Files, dir: string)
    ensures IsDir(files, ToolTarget(dir)) <==> ScriptPresent(files, dir)
  {
    forall p: Path ensures Below(ToolTarget(dir), p) <==>
        |p| > 2 && p[0] == "tools" && p[1] == "scripts" && (dir == "" || (|p| > 3 && p[2] == dir))
    {
      UnderScript(dir, p);
    }
    hide Below, ToolTarget;
  }

  /** A tool can be added exactly when its source is in order and neither its name nor its directory is taken, or it is to
      be replaced. */
  lemma AddToolExactly(f: Formats, files: Files, dir: string, tree: Files, replace: bool)
    requires SourceName(dir)
    ensures Edit(f, files, AddTool(dir, tree, replace)).Edited? <==>
      && ["tool.yaml"] in tree && SourceReadable(tree) && dir != ".."
      && f.nameOf(tree[["tool.yaml"]]).Some? && |f.nameOf(tree[["tool.yaml"]]).value| > 0
      && ToolTarget(dir) !in files
      && (replace || (!ScriptPresent(files, dir) && forall d :: !Registers(f, files, d, f.nameOf(tree[["tool.yaml"]]).value)))
  {
    ScriptPresentIs(files, dir);
    assert SourceOk(tree) <==> SourceReadable(tree);
    hide IsDir, ScriptPresent, SourceOk, SourceReadable, Registers, Cleared, With, Without, ToolTarget, SourceName;
    if [TOOL_FILE] in tree {
      var name := f.nameOf(tree[[TOOL_FILE]]);
      Named(name);
      if name.Some? && |name.value| > 0 { assert HasScript(f, files, name.value) <==> exists d :: Registers(f, files, d, name.value); }
      hide HasScript;
    }
  }

  lemma Named(name: Option<string>)
    ensures name in {None, Some("")} <==> name.None? || |name.value| == 0
  {
  }

  /** Its directory then holds the source and nothing else; outside it only what registered its name is gone. */
  lemma AddToolLeaves(f: Formats, files: Files, dir: string, tree: Files, replace: bool, p: Path)
    requires Edit(f, files, AddTool(dir, tree, replace)).Edited?
    ensures var edited := Edit(f, files, AddTool(dir, tree, replace)).files;
      var name := f.nameOf(tree[["tool.yaml"]]);
      if |p| > 2 && p[0] == "tools" && p[1] == "scripts" && dir == "" then
        (p in edited <==> p[2..] in tree) && (p in edited ==> edited[p] == tree[p[2..]])
      else if |p| > 3 && p[0] == "tools" && p[1] == "scripts" && p[2] == dir then
        (p in edited <==> p[3..] in tree) && (p in edited ==> edited[p] == tree[p[3..]])
      else
        && (p in edited ==> p in files && edited[p] == files[p])
        && (p in files && p !in edited ==>
             |p| > 3 && p[0] == "tools" && p[1] == "scripts" && name.Some? && Registers(f, files, p[2], name.value))
  {
    var name, target := f.nameOf(tree[[TOOL_FILE]]).value, ToolTarget(dir);
    var cleared := Cleared(f, files, name);
    AddToolIs(f, files, dir, tree, replace);
    assert [] !in tree by { NoRoot(tree); }
    CopyInside(cleared, target, tree);
    UnderScript(dir, p);
    ClearedKeeps(f, files, name, p);
    if Below(target, p) { assert target <= p; }
    hide With, Without, Cleared, Edit, Registers, Below;
  }

  lemma AddToolIs(f: Formats, files: Files, dir: string, tree: Files, replace: bool)
    requires Edit(f, files, AddTool(dir, tree, replace)).Edited?
    ensures [TOOL_FILE] in tree && SourceOk(tree) && f.nameOf(tree[[TOOL_FILE]]).Some?
    ensures var cleared := Cleared(f, files, f.nameOf(tree[[TOOL_FILE]]).value);
      ToolTarget(dir) !in cleared &&
      Edit(f, files, AddTool(dir, tree, replace)).files == With(Without(cleared, ToolTarget(dir)), ToolTarget(dir), tree)
  {
    hide SourceOk, HasScript, IsDir, With, DirectoryOf, ToolTarget;
  }

  /** Only what lies with a document of that name is cleared. */
  lemma ClearedKeeps(f: Formats, files: Files, name: string, p: Path)
    ensures p in Cleared(f, files, name) ==> p in files && Cleared(f, files, name)[p] == files[p]
    ensures p in files && p !in Cleared(f, files, name) ==>
      |p| > 3 && p[0] == "tools" && p[1] == "scripts" && Registers(f, files, p[2], name)
  {
    var existing := DirectoryOf(f, files, name);
    if existing.Some? {
      assert Registers(f, files, existing.value, name);
      UnderScript(existing.value, p);
      if Below(SCRIPTS + [existing.value], p) {
        EntryName(SCRIPTS, existing.value, p);
        Prefix(SCRIPTS + [existing.value], p, 0);
        Prefix(SCRIPTS + [existing.value], p, 1);
      }
    }
    hide Registers, Below;
  }

  // ------------------------------------------------------------------ documents and the bundle as a whole

  /** A document is replaced whenever it has between one and a million bytes; nothing else changes. */
  lemma SetExactly(f: Formats, files: Files, content: string)
    requires IsTree(files.Keys) && ["workflow.yaml"] in files && ["tools", "mcp", "servers.yaml"] in files
    ensures Edit(f, files, SetWorkflow(content)) ==
      if 1 <= |content| <= 1_000_000 then Edited(files[["workflow.yaml"] := content]) else Refused
    ensures Edit(f, files, SetMcp(content)) ==
      if 1 <= |content| <= 1_000_000 then Edited(files[["tools", "mcp", "servers.yaml"] := content]) else Refused
  {
    assert WORKFLOW in files && MCP_SERVERS in files;
    assert !IsDir(files, WORKFLOW) && !IsDir(files, MCP_SERVERS);
    hide IsDir, IsTree;
  }

  /** The places where a bundle may hold files. */
  predicate Placed(p: Path) {
    || p == ["workflow.yaml"]
    || (|p| > 1 && p[0] == "skills")
    || (|p| > 2 && p[0] == "tools" && (p[1] == "scripts" || p[1] == "mcp"))
  }

  lemma PlacedIs(p: Path)
    ensures BundlePath(p) <==> Placed(p)
  {
    if |p| > 1 { assert p[..1] == [p[0]]; }
    if |p| > 2 { assert p[..2] == [p[0], p[1]]; }
  }

  /** A directory is read exactly when every entry is a text file of one to a million bytes in its place, ten million in
      all. */
  lemma ReadExactly(d: Dir)
    ensures Read(d).Some? <==>
      && (forall p :: p in d ==> d[p].File? && 1 <= |d[p].content| <= 1_000_000 && Placed(p))
      && Total(Contents(d)) <= 10_000_000
  {
    forall p ensures BundlePath(p) <==> Placed(p) { PlacedIs(p); }
    hide BundlePath, Placed;
  }

  /** By its name a tool of valid scripts is removed exactly when it is registered, and the guard lets it go exactly when no
      phase of the workflow names it. */
  lemma RemoveToolExactly(f: Formats, files: Files, name: string)
    requires ScriptsOk(f, files) && WorkflowIn(f, files).Some?
    ensures Edit(f, files, RemoveTool(name)).Edited? <==> exists d :: Registers(f, files, d, name)
    ensures Guard(f, files, RemoveTool(name)) <==> name !in WorkflowIn(f, files).value.tools
    ensures match Edit(f, files, RemoveTool(name))
            case Edited(edited) =>
              forall d :: Registers(f, files, d, name) ==>
                forall p :: p in edited <==> p in files && !(|p| > 3 && p[0] == "tools" && p[1] == "scripts" && p[2] == d)
            case _ => true
  {
    DirectoryFound(f, files, name);
    var existing := DirectoryOf(f, files, name);
    if existing.Some? {
      RemovalInside(files, SCRIPTS + [existing.value]);
      forall p: Path ensures Below(SCRIPTS + [existing.value], p) <==>
          |p| > 3 && p[0] == "tools" && p[1] == "scripts" && p[2] == existing.value
      {
        if |p| > 3 { assert p[..3] == [p[0], p[1], p[2]]; }
      }
    }
    hide ScriptsOk, Registers, DirectoryOf, Without, Below, HasScript, WorkflowIn;
  }
}
