/** The doctor check "patrol-roles-have-prompts": every configured rig must
    carry the role prompts of the patrol roles in its own repository, under
    <town>/<rig>/mayor/rig/internal/templates/roles. `Run` records, per rig,
    which of them are missing; `Fix` copies the embedded templates into those
    places. The town's filesystem is seen through the rig list and a map from
    (rig, file name) to file contents. */
module Doctor {

  /** The status a doctor check reports. */
  datatype CheckStatus = StatusOK | StatusWarning | StatusError

  /** The part of a check result the model describes. */
  datatype CheckResult = CheckResult(name: string, status: CheckStatus, fixHint: string)

  const CheckName: string := "patrol-roles-have-prompts"
  const RolesFixHint: string := "Run 'gt doctor --fix' to copy embedded templates to rig repos"

  /** The prompts each rig must carry, in the order they are checked. */
  const RequiredRolePrompts: seq<string> := ["deacon.md.tmpl", "witness.md.tmpl", "refinery.md.tmpl"]

  /** The file `file` in the roles template directory of rig `rig`. */
  datatype TemplatePath = TemplatePath(rig: string, file: string)

  /** The existing template files and their contents. A rig without a
      templates directory has no entry at all. */
  type TemplateFiles = map<TemplatePath, string>

  /** The embedded template for a role prompt. Its actual text is not part of
      the model; it is never empty. */
  function EmbeddedTemplate(file: string): (content: string)
    ensures |content| > 0
  {
    "{{/* " + file + " */}}"
  }

  /** The names among `names` that rig `rig` lacks, in order. */
  function MissingFrom(names: seq<string>, rig: string, files: TemplateFiles): (missing: seq<string>)
    ensures |missing| <= |names|
    ensures forall f :: f in missing <==> f in names && TemplatePath(rig, f) !in files
    decreases |names|
  {
    if names == [] then []
    else
      var init, last := names[..|names| - 1], names[|names| - 1];
      assert names == init + [last];
      var rest := MissingFrom(init, rig, files);
      if TemplatePath(rig, last) in files then rest else rest + [last]
  }

  /** No name is listed more often than it occurs in `names`. */
  lemma {:induction false} MissingSubMultiset(names: seq<string>, rig: string, files: TemplateFiles)
    ensures multiset(MissingFrom(names, rig, files)) <= multiset(names)
    decreases |names|
  {
    if names != [] {
      var init, last := names[..|names| - 1], names[|names| - 1];
      assert names == init + [last];
      MissingSubMultiset(init, rig, files);
    }
  }

  /** `names` lists no name twice. */
  ghost predicate Distinct(names: seq<string>)
    decreases |names|
  {
    names == [] ||
    (names[|names| - 1] !in names[..|names| - 1] && Distinct(names[..|names| - 1]))
  }

  /** From a list without repeats, as many names are missing as there are
      distinct absent names. */
  lemma {:induction false} MissingCount(names: seq<string>, rig: string, files: TemplateFiles)
    requires Distinct(names)
    ensures |MissingFrom(names, rig, files)| == |AbsentAmong(names, rig, files)|
    decreases |names|
  {
    if names != [] {
      var init, last := names[..|names| - 1], names[|names| - 1];
      assert names == init + [last];
      MissingCount(init, rig, files);
      var rest := MissingFrom(init, rig, files);
      var before, after := AbsentAmong(init, rig, files), AbsentAmong(names, rig, files);
      if TemplatePath(rig, last) in files {
        assert MissingFrom(names, rig, files) == rest;
        assert after == before;
      } else {
        assert MissingFrom(names, rig, files) == rest + [last];
        assert last !in before;
        assert after == before + {last};
      }
    }
  }

  /** The names among `names` that rig `rig` lacks, as a set. */
  function AbsentAmong(names: seq<string>, rig: string, files: TemplateFiles): set<string>
  {
    set f | f in names && TemplatePath(rig, f) !in files
  }

  /** The required prompts that rig `rig` lacks, in order: the absent
      required prompts, each at most once, and nothing else. */
  function MissingFor(rig: string, files: TemplateFiles): (missing: seq<string>)
    ensures forall f :: f in missing <==> f in RequiredRolePrompts && TemplatePath(rig, f) !in files
  {
    MissingFrom(RequiredRolePrompts, rig, files)
  }

  /** A rig is reported with exactly as many prompts as it lacks: the
      required prompts are distinct, so none is listed twice. */
  lemma MissingForCount(rig: string, files: TemplateFiles)
    ensures |MissingFor(rig, files)| == |AbsentAmong(RequiredRolePrompts, rig, files)|
  {
    var names := RequiredRolePrompts;
    assert names[..2] == ["deacon.md.tmpl", "witness.md.tmpl"] && names[..2][..1] == ["deacon.md.tmpl"];
    assert Distinct(names[..2][..1]);
    assert Distinct(names[..2]);
    assert Distinct(names);
    MissingCount(names, rig, files);
  }

  /** What `Run` records: every configured rig that lacks at least one
      required prompt, with the prompts it lacks. */
  function MissingByRig(rigs: set<string>, files: TemplateFiles): (m: map<string, seq<string>>)
    ensures m.Keys <= rigs
  {
    map r | r in rigs && MissingFor(r, files) != [] :: MissingFor(r, files)
  }

  /** A rig is reported exactly when it is configured and one of the required
      prompts is absent, and it is reported with exactly the absent ones. */
  lemma ReportedIff(rigs: set<string>, files: TemplateFiles, r: string)
    ensures r in MissingByRig(rigs, files) <==>
      r in rigs && exists f :: f in RequiredRolePrompts && TemplatePath(r, f) !in files
    ensures r in MissingByRig(rigs, files) ==>
      forall f :: f in MissingByRig(rigs, files)[r] <==> f in RequiredRolePrompts && TemplatePath(r, f) !in files
  {
    if r in MissingByRig(rigs, files) {
      assert MissingFor(r, files)[0] in MissingFor(r, files);
    }
    if r in rigs && exists f :: f in RequiredRolePrompts && TemplatePath(r, f) !in files {
      var f :| f in RequiredRolePrompts && TemplatePath(r, f) !in files;
      assert f in MissingFor(r, files);
    }
  }

  /** Nothing is recorded exactly when every configured rig has every
      required prompt. */
  lemma NothingMissingIff(rigs: set<string>, files: TemplateFiles)
    ensures MissingByRig(rigs, files) == map[] <==>
      forall r, f :: r in rigs && f in RequiredRolePrompts ==> TemplatePath(r, f) in files
  {
    if MissingByRig(rigs, files) == map[] {
      forall r, f | r in rigs && f in RequiredRolePrompts
        ensures TemplatePath(r, f) in files
      {
        ReportedIff(rigs, files, r);
      }
    } else {
      var r :| r in MissingByRig(rigs, files);
      var f := MissingFor(r, files)[0];
      assert f in MissingFor(r, files);
    }
  }

  /** Recording one more rig: it is added when it lacks something and the
      other entries stay as they are. */
  lemma MissingByRigInsert(rigs: set<string>, rig: string, files: TemplateFiles)
    requires rig !in rigs
    ensures MissingByRig(rigs + {rig}, files) ==
      if MissingFor(rig, files) == [] then MissingByRig(rigs, files)
      else MissingByRig(rigs, files)[rig := MissingFor(rig, files)]
  {
  }

  /** `after` is `before` with the embedded template written to every file
      that `missing` lists for the rigs in `done`, overwriting nothing else. */
  ghost predicate WrittenFor(before: TemplateFiles, after: TemplateFiles,
                             missing: map<string, seq<string>>, done: set<string>)
  {
    && (forall p :: p in after <==>
          p in before || (p.rig in done && p.rig in missing && p.file in missing[p.rig]))
    && (forall p :: p in after ==>
          after[p] == if p.rig in done && p.rig in missing && p.file in missing[p.rig]
                      then EmbeddedTemplate(p.file) else before[p])
  }

  /** `after` is `before` with the embedded template written to the files
      `names` of rig `rig`. */
  ghost predicate WrittenForRig(before: TemplateFiles, after: TemplateFiles, rig: string, names: seq<string>)
  {
    && (forall p :: p in after <==> p in before || (p.rig == rig && p.file in names))
    && (forall p :: p in after ==>
          after[p] == if p.rig == rig && p.file in names then EmbeddedTemplate(p.file) else before[p])
  }

  /** Writing one more rig's list extends what has been written so far. */
  lemma WrittenForStep(before: TemplateFiles, mid: TemplateFiles, after: TemplateFiles,
                       missing: map<string, seq<string>>, done: set<string>, rig: string)
    requires rig in missing && rig !in done
    requires WrittenFor(before, mid, missing, done)
    requires WrittenForRig(mid, after, rig, missing[rig])
    ensures WrittenFor(before, after, missing, done + {rig})
  {
  }

  /** The town as the check sees it: the rigs listed in the town's rig
      configuration (none when there is no configuration) and the template
      files in the rigs' repositories. */
  class Town {
    var rigs: set<string>
    var templates: TemplateFiles

    constructor (rigs: set<string>, templates: TemplateFiles)
      ensures this.rigs == rigs && this.templates == templates
    {
      this.rigs := rigs;
      this.templates := templates;
    }
  }

  /** The required prompts that rig `rig` lacks, found by looking for each
      of them in turn. */
  method MissingPrompts(town: Town, rig: string) returns (missing: seq<string>)
    ensures missing == MissingFor(rig, town.templates)
  {
    missing := [];
    var i := 0;
    while i < |RequiredRolePrompts|
      invariant 0 <= i <= |RequiredRolePrompts|
      invariant missing == MissingFrom(RequiredRolePrompts[..i], rig, town.templates)
    {
      var name := RequiredRolePrompts[i];
      assert RequiredRolePrompts[..i + 1][..i] == RequiredRolePrompts[..i];
      if TemplatePath(rig, name) !in town.templates {
        missing := missing + [name];
      }
      i := i + 1;
    }
    assert RequiredRolePrompts[..i] == RequiredRolePrompts;
  }

  /** The doctor check itself. `missingByRig` holds what the last `Run`
      found, and is what `Fix` repairs. */
  class PatrolRolesHavePromptsCheck {
    var missingByRig: map<string, seq<string>>

    constructor ()
      ensures missingByRig == map[]
    {
      missingByRig := map[];
    }

    /** The name the check is registered under. */
    function Name(): (name: string)
      ensures name == "patrol-roles-have-prompts"
    {
      CheckName
    }

    /** The check can repair what it finds. */
    function CanFix(): (can: bool)
      ensures can
    {
      true
    }

    /** Looks at every configured rig and records those that lack a
        required prompt. The status is OK exactly when nothing was recorded;
        a warning carries the hint to run the fix. */
    method Run(town: Town) returns (result: CheckResult)
      modifies this
      ensures missingByRig == MissingByRig(town.rigs, town.templates)
      ensures result.name == CheckName
      ensures result.status == StatusOK <==> missingByRig == map[]
      ensures result.status == StatusOK || result.status == StatusWarning
      ensures result.status == StatusWarning ==> result.fixHint == RolesFixHint
    {
      var found: map<string, seq<string>> := map[];
      var todo := town.rigs;
      while todo != {}
        invariant todo <= town.rigs
        invariant found == MissingByRig(town.rigs - todo, town.templates)
        decreases todo
      {
        var rig :| rig in todo;
        var missing := MissingPrompts(town, rig);
        MissingByRigInsert(town.rigs - todo, rig, town.templates);
        if missing != [] {
          found := found[rig := missing];
        }
        assert town.rigs - (todo - {rig}) == (town.rigs - todo) + {rig};
        todo := todo - {rig};
      }
      assert town.rigs - todo == town.rigs;
      missingByRig := found;
      if found == map[] {
        result := CheckResult(CheckName, StatusOK, "");
      } else {
        result := CheckResult(CheckName, StatusWarning, RolesFixHint);
      }
    }

    /** Copies the embedded template into every place that the last `Run`
        recorded as missing, rig by rig; the rig list is left alone. */
    method Fix(town: Town)
      modifies town
      ensures town.rigs == old(town.rigs)
      ensures WrittenFor(old(town.templates), town.templates, missingByRig, missingByRig.Keys)
    {
      var todo := missingByRig.Keys;
      while todo != {}
        invariant todo <= missingByRig.Keys
        invariant town.rigs == old(town.rigs)
        invariant WrittenFor(old(town.templates), town.templates, missingByRig, missingByRig.Keys - todo)
        decreases todo
      {
        var rig :| rig in todo;
        ghost var mid := town.templates;
        WriteTemplates(town, rig, missingByRig[rig]);
        WrittenForStep(old(town.templates), mid, town.templates, missingByRig, missingByRig.Keys - todo, rig);
        assert missingByRig.Keys - (todo - {rig}) == (missingByRig.Keys - todo) + {rig};
        todo := todo - {rig};
      }
      assert missingByRig.Keys - todo == missingByRig.Keys;
    }
  }

  /** Writes the embedded template for each of `names` into rig `rig`'s
      template directory. */
  method WriteTemplates(town: Town, rig: string, names: seq<string>)
    modifies town
    ensures town.rigs == old(town.rigs)
    ensures WrittenForRig(old(town.templates), town.templates, rig, names)
  {
    var i := 0;
    while i < |names|
      invariant 0 <= i <= |names|
      invariant town.rigs == old(town.rigs)
      invariant WrittenForRig(old(town.templates), town.templates, rig, names[..i])
    {
      assert forall f :: f in names[..i + 1] <==> f in names[..i] || f == names[i] by {
        assert names[..i + 1] == names[..i] + [names[i]];
      }
      town.templates := town.templates[TemplatePath(rig, names[i]) := EmbeddedTemplate(names[i])];
      i := i + 1;
    }
    assert names[..i] == names;
  }

  /** After fixing what `Run` found, nothing is missing any more: every
      configured rig has every required prompt, and a new `Run` is OK. */
  lemma {:induction false} FixThenRunOk(rigs: set<string>, before: TemplateFiles, after: TemplateFiles)
    requires WrittenFor(before, after, MissingByRig(rigs, before), MissingByRig(rigs, before).Keys)
    ensures forall r, f :: r in rigs && f in RequiredRolePrompts ==> TemplatePath(r, f) in after
    ensures MissingByRig(rigs, after) == map[]
  {
    var m := MissingByRig(rigs, before);
    forall r, f | r in rigs && f in RequiredRolePrompts
      ensures TemplatePath(r, f) in after
    {
      if TemplatePath(r, f) !in before {
        ReportedIff(rigs, before, r);
        assert r in m && f in m[r];
      }
    }
    NothingMissingIff(rigs, after);
  }

  /** Fixing what `Run` found on the same files never overwrites an existing
      template, and creates only required prompts of configured rigs, each
      with non-empty contents. */
  lemma {:induction false} FixOnlyCreatesMissing(rigs: set<string>, before: TemplateFiles, after: TemplateFiles)
    requires WrittenFor(before, after, MissingByRig(rigs, before), MissingByRig(rigs, before).Keys)
    ensures forall p :: p in before ==> p in after && after[p] == before[p]
    ensures forall p :: p in after && p !in before ==>
      p.rig in rigs && p.file in RequiredRolePrompts && |after[p]| > 0
  {
    var m := MissingByRig(rigs, before);
    forall p | p in before
      ensures p in after && after[p] == before[p]
    {
      if p.rig in m {
        ReportedIff(rigs, before, p.rig);
      }
    }
    forall p | p in after && p !in before
      ensures p.rig in rigs && p.file in RequiredRolePrompts && |after[p]| > 0
    {
      ReportedIff(rigs, before, p.rig);
    }
  }

  /** The check's identity: its name, and that it can fix what it finds. */
  lemma CheckIdentity(check: PatrolRolesHavePromptsCheck)
    ensures check.Name() == "patrol-roles-have-prompts"
    ensures check.CanFix()
  {
  }

  /** With no rigs configured nothing is missing. */
  lemma NoRigsOk(files: TemplateFiles)
    ensures MissingByRig({}, files) == map[]
  {
  }

  /** A rig without any template lacks every required prompt, in order. */
  lemma {:induction false} NoTemplatesAllMissing(names: seq<string>, rig: string, files: TemplateFiles)
    requires forall f :: f in names ==> TemplatePath(rig, f) !in files
    ensures MissingFrom(names, rig, files) == names
    decreases |names|
  {
    if names != [] {
      var init := names[..|names| - 1];
      assert names == init + [names[|names| - 1]];
      NoTemplatesAllMissing(init, rig, files);
    }
  }

  /** A configured rig with no templates directory is recorded with all
      three required prompts, and the check warns. */
  lemma NoTemplatesDirScenario()
    ensures MissingByRig({"myproject"}, map[]) == map["myproject" := RequiredRolePrompts]
    ensures |MissingByRig({"myproject"}, map[])["myproject"]| == 3
  {
    NoTemplatesAllMissing(RequiredRolePrompts, "myproject", map[]);
  }

  /** With only the deacon prompt present, exactly the witness and refinery
      prompts are missing. */
  lemma OnlyDeaconScenario()
    ensures MissingFor("myproject", map[TemplatePath("myproject", "deacon.md.tmpl") := "test"])
      == ["witness.md.tmpl", "refinery.md.tmpl"]
  {
    var files := map[TemplatePath("myproject", "deacon.md.tmpl") := "test"];
    var names := RequiredRolePrompts;
    assert names[..2][..1] == names[..1];
    assert names[..1][..0] == [];
    assert MissingFrom(names[..1], "myproject", files) == [];
    assert MissingFrom(names[..2], "myproject", files) == ["witness.md.tmpl"];
  }

  /** Of two rigs, the one with every prompt is not recorded and the one
      without any is recorded with all three. */
  lemma MultipleRigsScenario()
    ensures var files := map[TemplatePath("project1", "deacon.md.tmpl") := "test",
                             TemplatePath("project1", "witness.md.tmpl") := "test",
                             TemplatePath("project1", "refinery.md.tmpl") := "test"];
            var m := MissingByRig({"project1", "project2"}, files);
            "project1" !in m && "project2" in m && |m["project2"]| == 3
  {
    var files := map[TemplatePath("project1", "deacon.md.tmpl") := "test",
                     TemplatePath("project1", "witness.md.tmpl") := "test",
                     TemplatePath("project1", "refinery.md.tmpl") := "test"];
    NothingMissingIff({"project1"}, files);
    ReportedIff({"project1", "project2"}, files, "project1");
    NoTemplatesAllMissing(RequiredRolePrompts, "project2", files);
  }

  /** The sequence of the fix test: a first `Run` warns, `Fix` fills the
      gaps without touching existing files, and a second `Run` is OK. */
  method RunFixRun(check: PatrolRolesHavePromptsCheck, town: Town) returns (first: CheckResult, second: CheckResult)
    modifies check, town
    ensures first.status == StatusWarning ==> first.fixHint == RolesFixHint
    ensures forall p :: p in old(town.templates) ==> p in town.templates && town.templates[p] == old(town.templates)[p]
    ensures forall r, f :: r in town.rigs && f in RequiredRolePrompts ==> TemplatePath(r, f) in town.templates
    ensures second.status == StatusOK
  {
    first := check.Run(town);
    ghost var before := town.templates;
    check.Fix(town);
    FixThenRunOk(town.rigs, before, town.templates);
    FixOnlyCreatesMissing(town.rigs, before, town.templates);
    second := check.Run(town);
  }
}
