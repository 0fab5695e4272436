/** The migration as it runs: statement by statement, row by row, name by name. */
module SkillMigration {
  import opened Basics
  import opened SkillTables
  import opened SkillMerge
  import opened SkillMeaning
  import T = SkillTables

  /** `_rewrite_agent_skill_names`, one agent's list, in place. */
  method RewriteNames(skills: map<SkillId, Skill>, renames: Renames, org: Option<OrgId>, names: seq<Name>) returns (out: seq<Name>)
    ensures out == NewNames(skills, renames, org, names)
  {
    out := names;
    for index := 0 to |names|
      invariant |out| == |names|
      invariant forall j :: 0 <= j < |names| ==> out[j] == if j < index then NewName(skills, renames, org, names[j]) else names[j]
    {
      if out[index] !in Sources(renames) {
        continue;
      }
      if org.Some? && exists s :: s in skills && skills[s] == Skill(out[index], org) {
        continue;
      }
      out := out[index := Renamed(renames, out[index])];
    }
  }

  method RewriteConfig(skills: map<SkillId, Skill>, renames: Renames, org: Option<OrgId>, c: Config) returns (out: Config)
    ensures out == NewConfig(skills, renames, org, c)
  {
    if c.Unreadable? {
      return c;
    }
    var agents := c.agents;
    for i := 0 to |c.agents|
      invariant |agents| == |c.agents|
      invariant forall j :: 0 <= j < |agents| ==> agents[j] == if j < i then NewAgent(skills, renames, org, c.agents[j]) else c.agents[j]
    {
      if agents[i].Skilled? {
        var names := RewriteNames(skills, renames, org, agents[i].skills);
        agents := agents[i := Skilled(names)];
      }
    }
    out := Readable(agents);
  }

  /** The version table at the end of each statement of one rename: of a merge, if both names
      exist; else the versions are not touched. */
  ghost predicate RenameTrace(db: Db, source: Name, target: Name, trace: seq<Versions>) {
    var from, into := Platform(db.skills, source), Platform(db.skills, target);
    if from.Some? && into.Some? then MergeTrace(db.versions, from.value, into.value, trace) else trace == []
  }

  /** And of the renames one after another. */
  ghost predicate RenamesTrace(db: Db, renames: Renames, traces: seq<seq<Versions>>)
    decreases |renames|
  {
    && |traces| == |renames|
    && (renames != [] ==>
          && renames[0].0 != renames[0].1
          && RenameTrace(db, renames[0].0, renames[0].1, traces[0])
          && RenamesTrace(T.MergeOrRename(db, renames[0].0, renames[0].1), renames[1..], traces[1..]))
  }

  lemma {:induction false} OneMore(db: Db, renames: Renames, traces: seq<seq<Versions>>, r: (Name, Name), trace: seq<Versions>)
    requires RenamesTrace(db, renames, traces) && r.0 != r.1 && RenameTrace(MergeAll(db, renames), r.0, r.1, trace)
    ensures RenamesTrace(db, renames + [r], traces + [trace])
    ensures MergeAll(db, renames + [r]) == T.MergeOrRename(MergeAll(db, renames), r.0, r.1)
    decreases |renames|
  {
    var all := renames + [r];
    if renames == [] {
      assert all[1..] == [] && (traces + [trace])[1..] == [];
    } else {
      OneMore(T.MergeOrRename(db, renames[0].0, renames[0].1), renames[1..], traces[1..], r, trace);
      assert all[1..] == renames[1..] + [r] && (traces + [trace])[1..] == traces[1..] + [trace];
    }
  }

  class SkillDb {
    var skills: map<SkillId, Skill>
    var versions: Versions
    var deps: map<int, Dep>
    var pipelines: map<int, Pipeline>
    var pipelineVersions: map<int, PipelineVersion>
    var sessions: map<int, Session>

    function State(): Db
      reads this
    {
      Db(skills, versions, deps, pipelines, pipelineVersions, sessions)
    }

    /** `_merge_or_rename` */
    method MergeOrRename(source: Name, target: Name) returns (ghost trace: seq<Versions>)
      requires Numbered(versions) && source != target
      modifies this`skills, this`versions, this`deps
      ensures State() == T.MergeOrRename(old(State()), source, target)
      ensures RenameTrace(old(State()), source, target, trace)
      ensures trace != [] ==> versions == trace[|trace| - 1]
    {
      trace := [];
      var from := Platform(skills, source);
      if from.None? {
        return;
      }
      var into := Platform(skills, target);
      if into.None? {
        skills := skills[from.value := skills[from.value].(name := target)];
        return;
      }
      versions, trace := MergeHistories(versions, from.value, into.value);
      deps := FollowedDeps(deps, from.value, into.value);
      skills := skills - {from.value};
    }

    /** The three `_rewrite_config_column` passes, the snapshot titles and the dependency
        names, each row on its own. The joins on the owning org see no column already rewritten. */
    method Rewrite(renames: Renames)
      modifies this
      ensures State() == Rewritten(old(State()), renames)
    {
      ghost var db := State();
      RewriteTitles(renames);
      RewritePipelines(renames);
      SameVersions(db, State(), renames);
      RewritePipelineVersions(renames);
      RewriteSessions(renames);
      SameDeps(db, State(), renames);
      RewriteDeps(renames);
    }

    method RewriteTitles(renames: Renames)
      modifies this`versions
      ensures versions == TitlesRewritten(old(State()), renames)
    {
      ghost var db := State();
      var all, left := versions, versions.Keys;
      while left != {}
        invariant left <= all.Keys && versions.Keys == all.Keys
        invariant forall k :: k in all ==> versions[k] == if k in left then all[k] else NewTitle(db, renames, all[k])
        decreases left
      {
        var k := AnyOf(left);
        left := left - {k};
        var s := all[k].skill;
        if s in skills && skills[s].org.None? && skills[s].name in Targets(renames) && all[k].title in Sources(renames) {
          versions := versions[k := all[k].(title := skills[s].name)];
        }
      }
      assert versions.Keys == TitlesRewritten(old(State()), renames).Keys;
      assert forall k :: k in versions ==> versions[k] == TitlesRewritten(old(State()), renames)[k];
    }

    method RewriteDeps(renames: Renames)
      modifies this`deps
      ensures deps == DepsRewritten(old(State()), renames)
    {
      ghost var db := State();
      var all, left := deps, deps.Keys;
      while left != {}
        invariant left <= all.Keys && deps.Keys == all.Keys
        invariant forall k :: k in all ==> deps[k] == if k in left then all[k] else DepRewritten(db, renames, all[k])
        decreases left
      {
        var k := AnyOf(left);
        left := left - {k};
        var pv := all[k].pipelineVersion;
        if all[k].isSkill && pv in pipelineVersions && pipelineVersions[pv].pipeline in pipelines {
          var names := RewriteNames(skills, renames, pipelines[pipelineVersions[pv].pipeline].org, [all[k].name]);
          deps := deps[k := all[k].(name := names[0])];
        }
      }
      assert deps.Keys == DepsRewritten(old(State()), renames).Keys;
      assert forall k :: k in deps ==> deps[k] == DepsRewritten(old(State()), renames)[k];
    }

    method RewriteSessions(renames: Renames)
      modifies this`sessions
      ensures sessions == SessionsRewritten(old(State()), renames)
    {
      var all, left := sessions, sessions.Keys;
      while left != {}
        invariant left <= all.Keys && sessions.Keys == all.Keys
        invariant forall k :: k in all ==> sessions[k] == if k in left then all[k] else SessionRewritten(skills, renames, all[k])
        decreases left
      {
        var k := AnyOf(left);
        left := left - {k};
        var c := RewriteConfig(skills, renames, all[k].org, all[k].spec);
        sessions := sessions[k := all[k].(spec := c)];
      }
      assert sessions.Keys == SessionsRewritten(old(State()), renames).Keys;
      assert forall k :: k in sessions ==> sessions[k] == SessionsRewritten(old(State()), renames)[k];
    }

    method RewritePipelineVersions(renames: Renames)
      modifies this`pipelineVersions
      ensures pipelineVersions == VersionsRewritten(old(State()), renames)
    {
      ghost var db := State();
      var all, left := pipelineVersions, pipelineVersions.Keys;
      while left != {}
        invariant left <= all.Keys && pipelineVersions.Keys == all.Keys
        invariant forall k :: k in all ==> pipelineVersions[k] == if k in left then all[k] else VersionRewritten(db, renames, all[k])
        decreases left
      {
        var k := AnyOf(left);
        left := left - {k};
        if all[k].pipeline in pipelines {
          var c := RewriteConfig(skills, renames, pipelines[all[k].pipeline].org, all[k].config);
          pipelineVersions := pipelineVersions[k := all[k].(config := c)];
        }
      }
      assert pipelineVersions.Keys == VersionsRewritten(old(State()), renames).Keys;
      assert forall k :: k in pipelineVersions ==> pipelineVersions[k] == VersionsRewritten(old(State()), renames)[k];
    }

    method RewritePipelines(renames: Renames)
      modifies this`pipelines
      ensures pipelines == PipelinesRewritten(old(State()), renames)
    {
      var all, left := pipelines, pipelines.Keys;
      while left != {}
        invariant left <= all.Keys && pipelines.Keys == all.Keys
        invariant forall k :: k in all ==> pipelines[k] == if k in left then all[k] else PipelineRewritten(skills, renames, all[k])
        decreases left
      {
        var k := AnyOf(left);
        left := left - {k};
        var c := RewriteConfig(skills, renames, all[k].org, all[k].config);
        pipelines := pipelines[k := all[k].(config := c)];
      }
      assert pipelines.Keys == PipelinesRewritten(old(State()), renames).Keys;
      assert forall k :: k in pipelines ==> pipelines[k] == PipelinesRewritten(old(State()), renames)[k];
    }

    /** `_apply_renames` */
    method ApplyRenames(renames: Renames) returns (ghost traces: seq<seq<Versions>>)
      requires Numbered(versions) && OneEach(skills) && Moves(renames)
      modifies this
      ensures State() == T.ApplyRenames(old(State()), renames)
      ensures RenamesTrace(old(State()), renames, traces)
    {
      ghost var db := State();
      traces := [];
      for i := 0 to |renames|
        invariant Numbered(versions) && OneEach(skills)
        invariant State() == MergeAll(db, renames[..i]) && RenamesTrace(db, renames[..i], traces)
      {
        RenameIsFaithful(State(), renames[i].0, renames[i].1);
        ghost var trace := MergeOrRename(renames[i].0, renames[i].1);
        OneMore(db, renames[..i], traces, renames[i], trace);
        assert renames[..i + 1] == renames[..i] + [renames[i]];
        traces := traces + [trace];
      }
      assert renames[..|renames|] == renames;
      Rewrite(renames);
    }
  }

  lemma SameVersions(db: Db, db': Db, renames: Renames)
    requires db'.skills == db.skills && db'.pipelineVersions == db.pipelineVersions && db'.pipelines == PipelinesRewritten(db, renames)
    ensures VersionsRewritten(db', renames) == VersionsRewritten(db, renames)
  {
    forall v | v in db.pipelineVersions ensures VersionsRewritten(db', renames)[v] == VersionsRewritten(db, renames)[v] {
      assert db.pipelineVersions[v].pipeline in db'.pipelines <==> db.pipelineVersions[v].pipeline in db.pipelines;
    }
    assert VersionsRewritten(db', renames).Keys == VersionsRewritten(db, renames).Keys;
  }

  lemma SameDeps(db: Db, db': Db, renames: Renames)
    requires db'.skills == db.skills && db'.deps == db.deps
    requires db'.pipelines == PipelinesRewritten(db, renames) && db'.pipelineVersions == VersionsRewritten(db, renames)
    ensures DepsRewritten(db', renames) == DepsRewritten(db, renames)
  {
    forall pv ensures OrgOf(db', pv) == OrgOf(db, pv) {
      assert pv in db'.pipelineVersions <==> pv in db.pipelineVersions;
      if pv in db.pipelineVersions {
        assert db'.pipelineVersions[pv].pipeline == db.pipelineVersions[pv].pipeline;
        assert db.pipelineVersions[pv].pipeline in db'.pipelines <==> db.pipelineVersions[pv].pipeline in db.pipelines;
      }
    }
    assert DepsRewritten(db', renames).Keys == DepsRewritten(db, renames).Keys;
    assert forall d :: d in db.deps ==> DepsRewritten(db', renames)[d] == DepsRewritten(db, renames)[d];
  }
}
