/** The configuration tables and a staging directory as the commands change them in place. */
module ConfigStaging {
  import opened Prelude
  import opened ConfigPaths
  import opened Config
  import opened ConfigEdits

  class Staging {
    var entries: Dir

    constructor ()
      ensures entries == map[]
    {
      entries := map[];
    }

    /** `materialize`: every file of the generation is written. */
    method Materialize(files: Files)
      modifies this
      ensures old(entries) == map[] ==> entries == Staged(files)
      ensures forall p :: p in files ==> p in entries && entries[p] == File(files[p])
    {
      var todo := files.Keys;
      while todo != {}
        invariant todo <= files.Keys
        invariant forall p :: p in entries <==> p in old(entries) || (p in files && p !in todo)
        invariant forall p :: p in files && p !in todo ==> entries[p] == File(files[p])
        decreases todo
      {
        var p :| p in todo;
        WriteText(p, files[p]);
        todo := todo - {p};
      }
      assert old(entries) == map[] ==> entries == Staged(files);
    }

    method WriteText(p: Path, content: string)
      modifies this
      ensures entries == old(entries)[p := File(content)]
    {
      entries := entries[p := File(content)];
    }

    /** `_read_bundle_files`: entry by entry, with the running total that stops at the first excess. */
    method ReadBundleFiles() returns (files: Option<Files>)
      ensures files == Read(entries)
    {
      var read: Files := map[];
      var total, todo := 0, entries.Keys;
      while todo != {}
        invariant todo <= entries.Keys && read.Keys == entries.Keys - todo
        invariant forall p :: p in read ==> entries[p] == File(read[p]) && SizeOk(read[p]) && BundlePath(p)
        invariant total == Total(read) <= MAX_BUNDLE_BYTES
        decreases todo
      {
        var p :| p in todo;
        match entries[p]
        case Symlink => return None;
        case NotText => return None;
        case File(content) =>
          if |content| == 0 || |content| > MAX_BUNDLE_FILE_BYTES { return None; }
          Grows(read, p, content);
          total := total + |content|;
          if total > MAX_BUNDLE_BYTES {
            TooLarge(entries, read[p := content]);
            return None;
          }
          if !BundlePath(p) { return None; }
          read := read[p := content];
        todo := todo - {p};
      }
      assert read == Contents(entries);
      return Some(read);
    }

    /** `shutil.rmtree` of the directory `d`. */
    method RemoveTree(ghost files: Files, d: Path)
      requires entries == Staged(files)
      modifies this
      ensures entries == Staged(Without(files, d))
    {
      var was, todo := entries, entries.Keys;
      while todo != {}
        invariant todo <= was.Keys
        invariant forall p :: p in entries <==> p in was && (p in todo || !Below(d, p))
        invariant forall p :: p in entries ==> entries[p] == was[p]
        decreases todo
      {
        var p :| p in todo;
        if Below(d, p) { entries := entries - {p}; }
        todo := todo - {p};
      }
      assert entries == Staged(Without(files, d));
    }

    /** `shutil.copytree` to the directory `d`. */
    method CopyTree(ghost files: Files, d: Path, tree: Files)
      requires entries == Staged(files)
      modifies this
      ensures entries == Staged(With(files, d, tree))
    {
      hide With;
      var was, todo := entries, tree.Keys;
      while todo != {}
        invariant todo <= tree.Keys
        invariant forall p :: p in entries <==> p in was || (d <= p && p[|d|..] in tree && p[|d|..] !in todo)
        invariant forall p :: p in entries ==>
          entries[p] == if d <= p && p[|d|..] in tree && p[|d|..] !in todo then File(tree[p[|d|..]]) else was[p]
        decreases todo
      {
        var rest :| rest in todo;
        assert (d + rest)[|d|..] == rest;
        forall p: Path | d <= p && p[|d|..] == rest ensures p == d + rest { assert d + p[|d|..] == p; }
        WriteText(d + rest, tree[rest]);
        todo := todo - {rest};
      }
      CopiedIsStaged(files, d, tree, was, entries);
    }

    method HasDir(d: Path) returns (found: bool)
      ensures found <==> exists p :: p in entries && Below(d, p)
    {
      var todo := entries.Keys;
      while todo != {}
        invariant todo <= entries.Keys && forall p :: p in entries && p !in todo ==> !Below(d, p)
        decreases todo
      {
        var p :| p in todo;
        if Below(d, p) { return true; }
        todo := todo - {p};
      }
      return false;
    }

    /** The file system's walk along the parts of a name. */
    method Follow(ghost files: Files, start: Path, parts: seq<string>) returns (place: Place)
      requires entries == Staged(files)
      ensures place == Walk(files, start, parts, {})
    {
      var at, passed, i := start, {}, 0;
      assert parts[0..] == parts;
      while i < |parts|
        invariant 0 <= i <= |parts|
        invariant Walk(files, start, parts, {}) == Walk(files, at, parts[i..], passed)
      {
        assert parts[i..][1..] == parts[i + 1..] && parts[i..][0] == parts[i];
        if parts[i] == ".." {
          if at == [] { return Left; }
          at, passed := at[..|at| - 1], passed + {at};
        } else {
          if i + 1 < |parts| {
            var there := HasDir(at + [parts[i]]);
            assert there <==> IsDir(files, at + [parts[i]]);
            if !there { return Missing; }
          }
          at, passed := at + [parts[i]], passed + {at};
        }
        i := i + 1;
      }
      return At(at, passed);
    }

    method SetWorkflow(f: Formats, ghost files: Files, content: string) returns (ok: bool)
      requires entries == Staged(files)
      modifies this
      ensures ok == Edit(f, files, Command.SetWorkflow(content)).Edited?
      ensures ok ==> entries == Staged(Edit(f, files, Command.SetWorkflow(content)).files)
    {
      var taken := HasDir(WORKFLOW);
      assert taken <==> IsDir(files, WORKFLOW);
      ok := SizeOk(content) && !taken;
      if ok {
        WriteText(WORKFLOW, content);
        assert entries == Staged(files[WORKFLOW := content]);
      }
    }

    method SetMcp(f: Formats, ghost files: Files, content: string) returns (ok: bool)
      requires entries == Staged(files)
      modifies this
      ensures ok == Edit(f, files, Command.SetMcp(content)).Edited?
      ensures ok ==> entries == Staged(Edit(f, files, Command.SetMcp(content)).files)
    {
      var taken := HasDir(MCP_SERVERS);
      assert taken <==> IsDir(files, MCP_SERVERS);
      ok := SizeOk(content) && !taken;
      if ok {
        WriteText(MCP_SERVERS, content);
        assert entries == Staged(files[MCP_SERVERS := content]);
      }
    }

    /** `_add_skill`, on a staged generation. A refusal leaves the directory to be thrown away. */
    method AddSkill(f: Formats, ghost files: Files, name: string, tree: Files, sourceOk: bool, replace: bool) returns (ok: bool)
      requires entries == Staged(files) && sourceOk == SourceOk(tree)
      modifies this
      ensures ok == Edit(f, files, Command.AddSkill(name, tree, replace)).Edited?
      ensures ok ==> entries == Staged(Edit(f, files, Command.AddSkill(name, tree, replace)).files)
    {
      if [SKILL_FILE] !in tree || !sourceOk || !LegalName(name) || !f.skillOk(name, tree[[SKILL_FILE]]) { return false; }
      var d := SKILLS + [name];
      var found := HasDir(d);
      assert found <==> SkillDir(files, name);
      if d in entries || (found && !replace) { return false; }
      hide With, Without, SourceOk, LegalName, SkillDir;
      RemoveTree(files, d);
      CopyTree(Without(files, d), d, tree);
      return true;
    }

    /** `_remove_skill`: the raw name is followed as a path. None when that path leaves the staging directory. */
    method RemoveSkill(f: Formats, ghost files: Files, name: string) returns (ok: Option<bool>)
      requires entries == Staged(files)
      modifies this
      ensures ok.None? <==> Edit(f, files, Command.RemoveSkill(name)) == Outside
      ensures ok == Some(true) <==> Edit(f, files, Command.RemoveSkill(name)).Edited?
      ensures ok == Some(true) ==> entries == Staged(Edit(f, files, Command.RemoveSkill(name)).files)
    {
      if Absolute(name) { return None; }
      var any := HasDir(SKILLS);
      assert any <==> IsDir(files, SKILLS);
      if !any { return Some(false); }
      var parts := PartsOf(name);
      var place := Follow(files, SKILLS, parts);
      if place.Left? { return None; }
      if place.Missing? { return Some(false); }
      var there := HasDir(place.path);
      assert there <==> IsDir(files, place.path);
      if !there || exists d :: d in place.passed && Below(place.path, d) { return Some(false); }
      hide Walk, Parts, Without, IsDir;
      RemoveTree(files, place.path);
      return Some(true);
    }

    /** `_add_tool`: the directory that registers the name goes, whatever it is called, then the target directory. */
    method AddTool(f: Formats, ghost files: Files, dir: string, tree: Files, sourceOk: bool, replace: bool) returns (ok: bool)
      requires entries == Staged(files) && ScriptsOk(f, files) && sourceOk == SourceOk(tree)
      modifies this
      ensures ok == Edit(f, files, Command.AddTool(dir, tree, replace)).Edited?
      ensures ok ==> entries == Staged(Edit(f, files, Command.AddTool(dir, tree, replace)).files)
    {
      if [TOOL_FILE] !in tree || !sourceOk || f.nameOf(tree[[TOOL_FILE]]) in {None, Some("")} || !SourceName(dir) || dir == ".." {
        return false;
      }
      var name, target := f.nameOf(tree[[TOOL_FILE]]).value, ToolTarget(dir);
      var installed := InstalledScriptDirectories(f, files);
      SameDirectory(f, files, name, installed);
      var present := HasDir(target);
      assert present <==> IsDir(files, target);
      hide ScriptsOk, Registers, DirectoryOf, HasScript, With, Without, SourceOk, IsDir;
      if (name in installed || present || target in entries) && !replace { return false; }
      if target in entries { return false; }
      ghost var cleared := Cleared(f, files, name);
      if name in installed { RemoveTree(files, SCRIPTS + [installed[name]]); }
      assert entries == Staged(cleared);
      hide Cleared, Staged;
      RemoveTree(cleared, target);
      CopyTree(Without(cleared, target), target, tree);
      return true;
    }

    method RemoveTool(f: Formats, ghost files: Files, name: string) returns (ok: bool)
      requires entries == Staged(files) && ScriptsOk(f, files)
      modifies this
      ensures ok == Edit(f, files, Command.RemoveTool(name)).Edited?
      ensures ok ==> entries == Staged(Edit(f, files, Command.RemoveTool(name)).files)
    {
      var installed := InstalledScriptDirectories(f, files);
      SameDirectory(f, files, name, installed);
      hide ScriptsOk, Registers, DirectoryOf, Without;
      if name !in installed { return false; }
      RemoveTree(files, SCRIPTS + [installed[name]]);
      return true;
    }

    /** `_installed_script_directories`: the names the staged tool documents register, with their directories. */
    method InstalledScriptDirectories(f: Formats, ghost files: Files) returns (installed: map<string, string>)
      requires entries == Staged(files) && ScriptsOk(f, files)
      ensures forall name, dir :: name in installed && installed[name] == dir <==> Registers(f, files, dir, name)
    {
      hide ScriptOk, ScriptDir;
      installed := map[];
      var todo := entries.Keys;
      while todo != {}
        invariant todo <= entries.Keys
        invariant forall name, dir ::
          name in installed && installed[name] == dir <==> ToolDoc(dir) !in todo && Registers(f, files, dir, name)
        decreases todo
      {
        var p :| p in todo;
        if |p| == 4 && p == ToolDoc(p[2]) && entries[p].File? {
          var name := f.nameOf(entries[p].content);
          if name.Some? {
            assert Registers(f, files, p[2], name.value);
            installed := installed[name.value := p[2]];
          }
        }
        forall dir | ToolDoc(dir) == p ensures |p| == 4 && p[2] == dir {}
        todo := todo - {p};
      }
    }
  }

  /** Where a name leads, character by character: the pieces between slashes, without the empty ones and `.`. */
  method PartsOf(name: string) returns (parts: seq<string>)
    ensures parts == Parts(name)
  {
    var pieces, i := [""], |name|;
    while i > 0
      invariant 0 <= i <= |name| && pieces == Split(name[i..]) && |pieces| >= 1
    {
      i := i - 1;
      assert name[i..][1..] == name[i + 1..] && name[i..][0] == name[i];
      pieces := if name[i] == '/' then [""] + pieces else [[name[i]] + pieces[0]] + pieces[1..];
    }
    assert name[0..] == name;
    parts := [];
    var j := |pieces|;
    while j > 0
      invariant 0 <= j <= |pieces| && parts == Meaningful(pieces[j..])
    {
      j := j - 1;
      assert pieces[j..][1..] == pieces[j + 1..] && pieces[j..][0] == pieces[j];
      if pieces[j] != "" && pieces[j] != "." { parts := [pieces[j]] + parts; }
    }
    assert pieces[0..] == pieces;
  }

  lemma CopiedIsStaged(files: Files, d: Path, tree: Files, before: Dir, after: Dir)
    requires before == Staged(files)
    requires forall p :: p in after <==> p in before || (d <= p && p[|d|..] in tree)
    requires forall p :: p in after ==>
      after[p] == if d <= p && p[|d|..] in tree then File(tree[p[|d|..]]) else before[p]
    ensures after == Staged(With(files, d, tree))
  {
    forall p ensures p in after <==> p in With(files, d, tree) { WithAt(files, d, tree, p); }
    forall p | p in after ensures after[p] == File(With(files, d, tree)[p]) { WithAt(files, d, tree, p); }
    hide With;
  }

  lemma SameDirectory(f: Formats, files: Files, name: string, installed: map<string, string>)
    requires ScriptsOk(f, files)
    requires forall n, dir :: n in installed && installed[n] == dir <==> Registers(f, files, dir, n)
    ensures DirectoryOf(f, files, name) == if name in installed then Some(installed[name]) else None
    ensures HasScript(f, files, name) <==> name in installed
  {
    DirectoryFound(f, files, name);
    hide ScriptsOk, Registers;
    if name in installed { assert Registers(f, files, installed[name], name); }
  }

  lemma Grows(read: Files, p: Path, content: string)
    requires p !in read
    ensures Total(read[p := content]) == |content| + Total(read)
  {
    TotalMinus(read[p := content], p);
    assert read[p := content] - {p} == read;
  }

  lemma TooLarge(d: Dir, part: Files)
    requires part.Keys <= d.Keys && forall p :: p in part ==> d[p] == File(part[p])
    requires Total(part) > MAX_BUNDLE_BYTES
    ensures !Readable(d)
  {
    SmallerTotal(part, Contents(d));
  }

  class ConfigTables {
    var rows: seq<GenerationId>
    var files: map<GenerationId, Files>
    var current: Option<GenerationId>
    var threads: map<string, Option<GenerationId>>

    ghost function View(): Registry
      reads this
    {
      Registry(rows, files, current, threads)
    }

    constructor ()
      ensures View() == UNCONFIGURED
    {
      rows, files, current, threads := [], map[], None, map[];
    }

    method NextNumber() returns (n: nat)
      ensures n == MaxNumber(rows) + 1
    {
      var best, i := 0, 0;
      assert rows[..0] == [];
      while i < |rows|
        invariant 0 <= i <= |rows| && best == MaxNumber(rows[..i])
      {
        assert rows[..i + 1][..i] == rows[..i];
        if best < rows[i].number { best := rows[i].number; }
        i := i + 1;
      }
      assert rows[..i] == rows;
      return best + 1;
    }

    /** `install`; `accepted` is the verdict of the parsers on the files that were read. */
    method InstallBundle(f: Formats, staging: Staging, accepted: bool) returns (ok: bool)
      requires Read(staging.entries).Some? ==> accepted == Valid(f, Read(staging.entries).value)
      modifies this
      ensures ok == Install(f, old(View()), staging.entries).Some?
      ensures View() == Install(f, old(View()), staging.entries).GetOr(old(View()))
    {
      hide Valid, Readable;
      var read := staging.ReadBundleFiles();
      if read.None? || !accepted { return false; }
      var n := NextNumber();
      var id := GenerationId(n, read.value);
      rows, files, current := rows + [id], files[id := read.value], Some(id);
      return true;
    }

    /** The thread's configuration is bound when its first event creates it. */
    method BindThread(t: string) returns (created: bool)
      modifies this`threads
      ensures created <==> t !in old(threads)
      ensures threads == if created then old(threads)[t := current] else old(threads)
    {
      if t in threads { return false; }
      threads := threads[t := current];
      return true;
    }
  }
}
