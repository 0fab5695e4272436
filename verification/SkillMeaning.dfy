/** The whole migration: what it keeps, and when every pinned name still means the same
    snapshot afterwards. */
module SkillMeaning {
  import opened Basics
  import opened SkillTables
  import opened SkillMerge
  import T = SkillTables

  // ------------------------------------------------------------------ the merged history

  lemma EarlierGrows(vs: Versions, rows: set<VersionId>, a: VersionId, b: VersionId)
    requires rows <= vs.Keys && a in rows && b in vs && Before(vs, a, b)
    ensures |Earlier(vs, rows, a)| < |Earlier(vs, rows, b)|
  {
    assert Earlier(vs, rows, a) + {a} <= Earlier(vs, rows, b);
    Fewer(Earlier(vs, rows, a) + {a}, Earlier(vs, rows, b));
  }

  function Both(vs: Versions, from: SkillId, into: SkillId): set<VersionId> { RowsOf(vs, from) + RowsOf(vs, into) }

  /** Every snapshot keeps its id and content. */
  lemma MergedFrame(vs: Versions, from: SkillId, into: SkillId)
    requires from != into
    ensures var rows := Both(vs, from, into); var m := MergedVersions(vs, from, into);
      && m.Keys == vs.Keys && RowsOf(m, into) == rows && RowsOf(m, from) == {}
      && (forall v :: v in vs ==> m[v].body == vs[v].body && m[v].created == vs[v].created && m[v].title == vs[v].title)
      && (forall v :: v in vs && v !in rows ==> m[v] == vs[v])
      && (forall v :: v in rows ==> m[v].number == 1 + |Earlier(vs, rows, v)|)
  {}

  /** The number a row of the merged history gets. */
  function Place(vs: Versions, rows: set<VersionId>, v: VersionId): int
    requires v in vs && rows <= vs.Keys
  {
    1 + |Earlier(vs, rows, v)|
  }

  lemma PlaceInRange(vs: Versions, rows: set<VersionId>, v: VersionId)
    requires rows <= vs.Keys && v in rows
    ensures 1 <= Place(vs, rows, v) <= |rows|
  {
    Fewer(Earlier(vs, rows, v) + {v}, rows);
  }

  lemma PlacesFollowCreation(vs: Versions, rows: set<VersionId>, a: VersionId, b: VersionId)
    requires rows <= vs.Keys && a in rows && b in rows
    ensures Place(vs, rows, a) < Place(vs, rows, b) <==> Before(vs, a, b)
    ensures a != b ==> Place(vs, rows, a) != Place(vs, rows, b)
  {
    if Before(vs, a, b) { EarlierGrows(vs, rows, a, b); } else if a != b { EarlierGrows(vs, rows, b, a); }
  }

  predicate Numbers(vs: Versions, rows: set<VersionId>, k: int) { exists v :: v in rows && v in vs && vs[v].number == k }

  /** The two histories are numbered 1 to n, without gaps or repeats, in order of creation. */
  lemma MergedHistory(vs: Versions, from: SkillId, into: SkillId)
    requires from != into
    ensures var rows := Both(vs, from, into); var m := MergedVersions(vs, from, into);
      && m.Keys == vs.Keys && RowsOf(m, into) == rows && RowsOf(m, from) == {}
      && (forall v :: v in rows ==> 1 <= m[v].number <= |rows|)
      && (forall a, b :: a in rows && b in rows ==> (m[a].number < m[b].number <==> Before(vs, a, b)))
      && (forall k :: 1 <= k <= |rows| ==> Numbers(m, rows, k))
  {
    var rows, m := Both(vs, from, into), MergedVersions(vs, from, into);
    MergedFrame(vs, from, into);
    forall v | v in rows ensures 1 <= m[v].number <= |rows| { PlaceInRange(vs, rows, v); }
    forall a, b | a in rows && b in rows ensures m[a].number < m[b].number <==> Before(vs, a, b) { PlacesFollowCreation(vs, rows, a, b); }
    var ids := Ordered(vs, rows);
    forall k | 1 <= k <= |rows| ensures Numbers(m, rows, k) {
      PlaceIsCount(vs, rows, k - 1);
      assert ids[k - 1] in ids;
      assert m[ids[k - 1]].number == k;
    }
  }

  lemma NumberedKeeps(vs: Versions, from: SkillId, into: SkillId)
    requires Numbered(vs) && from != into
    ensures Numbered(MergedVersions(vs, from, into))
  {
    var rows, m := Both(vs, from, into), MergedVersions(vs, from, into);
    MergedFrame(vs, from, into);
    Fewer(rows, vs.Keys);
    assert |m| == |m.Keys| == |vs.Keys| == |vs|;
    forall v | v in m ensures 1 <= m[v].number < RENUMBER_SHIFT {
      if v in rows { PlaceInRange(vs, rows, v); }
    }
    forall a, b | a in m && b in m && a != b && m[a].skill == m[b].skill ensures m[a].number != m[b].number {
      assert a in RowsOf(m, into) <==> b in RowsOf(m, into);
      if a in rows { PlacesFollowCreation(vs, rows, a, b); }
    }
  }

  // ------------------------------------------------------------------ what no rename touches

  /** At most one platform skill has a name. */
  predicate OneEach(skills: map<SkillId, Skill>) {
    forall a, b :: a in skills && b in skills && skills[a].org.None? && skills[a] == skills[b] ==> a == b
  }

  /** Snapshots keep ids and content, dependencies their names and pins, orgs their skills. */
  ghost predicate Faithful(db: Db, db': Db) {
    && db'.versions.Keys == db.versions.Keys && (forall v :: v in db.versions ==> db'.versions[v].body == db.versions[v].body)
    && db'.deps.Keys == db.deps.Keys
    && (forall d :: d in db.deps ==> db'.deps[d] == db.deps[d].(resource := db'.deps[d].resource))
    && db'.pipelines == db.pipelines && db'.pipelineVersions == db.pipelineVersions && db'.sessions == db.sessions
    && (forall s :: s in db'.skills && db'.skills[s].org.Some? ==> s in db.skills && db.skills[s] == db'.skills[s])
    && (forall s :: s in db.skills && db.skills[s].org.Some? ==> s in db'.skills && db'.skills[s] == db.skills[s])
  }

  lemma RenameIsFaithful(db: Db, source: Name, target: Name)
    requires OneEach(db.skills) && Numbered(db.versions) && source != target
    ensures Faithful(db, MergeOrRename(db, source, target))
    ensures OneEach(MergeOrRename(db, source, target).skills) && Numbered(MergeOrRename(db, source, target).versions)
  {
    var from, into := Platform(db.skills, source), Platform(db.skills, target);
    if from.Some? {
      if into.Some? { MergeIsFaithful(db, from.value, into.value); NumberedKeeps(db.versions, from.value, into.value); } else { PlainRenameIsFaithful(db, from.value, target); }
    }
  }

  lemma MergeIsFaithful(db: Db, from: SkillId, into: SkillId)
    requires OneEach(db.skills) && from != into && from in db.skills && db.skills[from].org.None?
    ensures var db' := db.(versions := MergedVersions(db.versions, from, into), deps := FollowedDeps(db.deps, from, into), skills := db.skills - {from});
      Faithful(db, db') && OneEach(db'.skills)
  {}

  lemma PlainRenameIsFaithful(db: Db, from: SkillId, target: Name)
    requires OneEach(db.skills) && from in db.skills && db.skills[from].org.None? && Platform(db.skills, target).None?
    ensures var db' := db.(skills := db.skills[from := db.skills[from].(name := target)]);
      Faithful(db, db') && OneEach(db'.skills)
  {
    assert forall s :: s in db.skills && db.skills[s] == Skill(target, None) ==> s in PlatformIds(db.skills, target);
  }

  predicate Moves(renames: Renames) { forall i :: 0 <= i < |renames| ==> renames[i].0 != renames[i].1 }

  lemma {:induction false} MergeAllIsFaithful(db: Db, renames: Renames)
    requires OneEach(db.skills) && Numbered(db.versions) && Moves(renames)
    ensures Faithful(db, MergeAll(db, renames))
    ensures OneEach(MergeAll(db, renames).skills) && Numbered(MergeAll(db, renames).versions)
    decreases |renames|
  {
    if renames != [] {
      var db1 := MergeOrRename(db, renames[0].0, renames[0].1);
      RenameIsFaithful(db, renames[0].0, renames[0].1);
      MergeAllIsFaithful(db1, renames[1..]);
    }
  }

  lemma NewNameAfterMerge(db: Db, renames: Renames, org: Option<OrgId>, n: Name)
    requires Faithful(db, MergeAll(db, renames))
    ensures NewName(MergeAll(db, renames).skills, renames, org, n) == NewName(db.skills, renames, org, n)
  {}

  /** Every skill dependency and every snapshot names a skill that exists. */
  predicate NothingDangles(db: Db) {
    && (forall v :: v in db.versions ==> db.versions[v].skill in db.skills)
    && (forall d :: d in db.deps && db.deps[d].isSkill ==> db.deps[d].resource in db.skills)
  }

  lemma RenameLeavesNothingDangling(db: Db, source: Name, target: Name)
    requires NothingDangles(db) && source != target
    ensures NothingDangles(MergeOrRename(db, source, target))
  {}

  lemma {:induction false} MergeAllLeavesNothingDangling(db: Db, renames: Renames)
    requires NothingDangles(db) && Moves(renames)
    ensures NothingDangles(MergeAll(db, renames))
    decreases |renames|
  {
    if renames != [] {
      RenameLeavesNothingDangling(db, renames[0].0, renames[0].1);
      MergeAllLeavesNothingDangling(MergeOrRename(db, renames[0].0, renames[0].1), renames[1..]);
    }
  }

  /** After the migration no platform snapshot under a new name still carries an old title, and
      only such titles changed. */
  lemma TitlesFollow(db: Db, renames: Renames, v: VersionId)
    requires v in db.versions && Sources(renames) !! Targets(renames)
    ensures var before, after := db.versions[v], Rewritten(db, renames).versions[v];
      && after == before.(title := after.title)
      && (before.skill in db.skills && db.skills[before.skill].org.None? && db.skills[before.skill].name in Targets(renames) ==> after.title !in Sources(renames))
      && (after.title != before.title ==> before.title in Sources(renames) && before.skill in db.skills && after.title == db.skills[before.skill].name)
  {}

  // ------------------------------------------------------------------ resolution

  /** The dependencies that `load_skills` looks at for a pipeline version and a name. */
  function Pinning(db: Db, pv: int, n: Name): set<int> {
    set d | d in db.deps && db.deps[d].isSkill && db.deps[d].pipelineVersion == pv && db.deps[d].name == n
            && db.deps[d].pin.Some? && db.deps[d].pin.value in db.versions
  }

  /** The snapshots the name is pinned to: one, where the version's names are distinct. */
  function Pinned(db: Db, pv: int, n: Name): set<VersionId> {
    set d | d in Pinning(db, pv, n) :: db.deps[d].pin.value
  }

  /** Names the version pins that become one name are pinned alike already. */
  predicate Consistent(db: Db, renames: Renames, pv: int, org: Option<OrgId>) {
    forall d, e :: d in db.deps && e in db.deps && Pins(db, d, pv) && Pins(db, e, pv)
                   && NewName(db.skills, renames, org, db.deps[d].name) == NewName(db.skills, renames, org, db.deps[e].name)
      ==> Pinned(db, pv, db.deps[d].name) == Pinned(db, pv, db.deps[e].name)
  }

  predicate Pins(db: Db, d: int, pv: int)
    requires d in db.deps
  {
    d in Pinning(db, pv, db.deps[d].name)
  }

  /** After the migration a name is pinned to what every name that became it was pinned to. */
  lemma PinnedAfter(db: Db, renames: Renames, pv: int, org: Option<OrgId>, n: Name, v: VersionId)
    requires OneEach(db.skills) && Numbered(db.versions) && Moves(renames) && OrgOf(db, pv) == Some(org)
    ensures v in Pinned(ApplyRenames(db, renames), pv, n) <==>
      exists d :: d in db.deps && Pins(db, d, pv) && NewName(db.skills, renames, org, db.deps[d].name) == n && db.deps[d].pin.value == v
  {
    MergeAllIsFaithful(db, renames);
    var db1, db2 := MergeAll(db, renames), ApplyRenames(db, renames);
    forall d | d in db.deps ensures d in Pinning(db2, pv, n) <==> Pins(db, d, pv) && NewName(db.skills, renames, org, db.deps[d].name) == n {
      DepAfter(db, renames, pv, org, d);
    }
    if v in Pinned(db2, pv, n) {
      var d :| d in Pinning(db2, pv, n) && db2.deps[d].pin.value == v;
      DepAfter(db, renames, pv, org, d);
    }
    if d :| d in db.deps && Pins(db, d, pv) && NewName(db.skills, renames, org, db.deps[d].name) == n && db.deps[d].pin.value == v {
      DepAfter(db, renames, pv, org, d);
      assert d in Pinning(db2, pv, n);
    }
  }

  lemma DepAfter(db: Db, renames: Renames, pv: int, org: Option<OrgId>, d: int)
    requires d in db.deps && Faithful(db, MergeAll(db, renames)) && OrgOf(db, pv) == Some(org)
    ensures var db2 := ApplyRenames(db, renames);
      && db2.deps.Keys == db.deps.Keys && db2.versions.Keys == db.versions.Keys
      && db2.deps[d].pin == db.deps[d].pin && db2.deps[d].isSkill == db.deps[d].isSkill && db2.deps[d].pipelineVersion == db.deps[d].pipelineVersion
      && (db.deps[d].isSkill && db.deps[d].pipelineVersion == pv ==> db2.deps[d].name == NewName(db.skills, renames, org, db.deps[d].name))
  {}

  /** Every pinned name of a pipeline version means what it meant exactly when the version's
      names do not run together with different pins. */
  lemma MeaningIsKeptIff(db: Db, renames: Renames, pv: int, org: Option<OrgId>)
    requires OneEach(db.skills) && Numbered(db.versions) && Moves(renames) && OrgOf(db, pv) == Some(org)
    ensures Consistent(db, renames, pv, org) <==>
      forall d :: d in db.deps && Pins(db, d, pv) ==>
        Pinned(ApplyRenames(db, renames), pv, NewName(db.skills, renames, org, db.deps[d].name)) == Pinned(db, pv, db.deps[d].name)
  {
    var db2 := ApplyRenames(db, renames);
    if Consistent(db, renames, pv, org) {
      forall d | d in db.deps && Pins(db, d, pv)
        ensures Pinned(db2, pv, NewName(db.skills, renames, org, db.deps[d].name)) == Pinned(db, pv, db.deps[d].name)
      {
        ConsistentKeeps(db, renames, pv, org, d);
      }
    }
  }

  lemma ConsistentKeeps(db: Db, renames: Renames, pv: int, org: Option<OrgId>, d: int)
    requires OneEach(db.skills) && Numbered(db.versions) && Moves(renames) && OrgOf(db, pv) == Some(org)
    requires Consistent(db, renames, pv, org) && d in db.deps && Pins(db, d, pv)
    ensures Pinned(ApplyRenames(db, renames), pv, NewName(db.skills, renames, org, db.deps[d].name)) == Pinned(db, pv, db.deps[d].name)
  {
    var name := db.deps[d].name;
    var n := NewName(db.skills, renames, org, name);
    forall v ensures v in Pinned(ApplyRenames(db, renames), pv, n) <==> v in Pinned(db, pv, name) {
      PinnedAfter(db, renames, pv, org, n, v);
      if v in Pinned(ApplyRenames(db, renames), pv, n) {
        var e :| e in db.deps && Pins(db, e, pv) && NewName(db.skills, renames, org, db.deps[e].name) == n && db.deps[e].pin.value == v;
        assert v in Pinned(db, pv, db.deps[e].name);
      }
      if v in Pinned(db, pv, name) {
        var e :| e in Pinning(db, pv, name) && db.deps[e].pin.value == v;
        assert Pins(db, e, pv);
      }
    }
  }

  /** The same config with every skill name, in its place, under its new name. */
  predicate Follows(skills: map<SkillId, Skill>, renames: Renames, org: Option<OrgId>, c: Config, c': Config) {
    match c
    case Unreadable => c' == c
    case Readable(agents) => c'.Readable? && |c'.agents| == |agents| && forall i :: 0 <= i < |agents| ==> AgentFollows(skills, renames, org, agents[i], c'.agents[i])
  }

  predicate AgentFollows(skills: map<SkillId, Skill>, renames: Renames, org: Option<OrgId>, a: Agent, a': Agent) {
    match a
    case Plain => a' == a
    case Skilled(names) => a'.Skilled? && |a'.skills| == |names| && forall j :: 0 <= j < |names| ==> a'.skills[j] == NewName(skills, renames, org, names[j])
  }

  predicate HeadFollows(db: Db, renames: Renames, p: Pipeline, p': Pipeline) {
    p'.org == p.org && Follows(db.skills, renames, p.org, p.config, p'.config)
  }

  predicate SessionFollows(db: Db, renames: Renames, s: Session, s': Session) {
    s'.org == s.org && Follows(db.skills, renames, s.org, s.spec, s'.spec)
  }

  /** A version whose pipeline is gone is not reached by the join. */
  predicate VersionFollows(db: Db, renames: Renames, pv: int, v': PipelineVersion)
    requires pv in db.pipelineVersions
  {
    var v, org := db.pipelineVersions[pv], OrgOf(db, pv);
    v'.pipeline == v.pipeline && if org.Some? then Follows(db.skills, renames, org.value, v.config, v'.config) else v' == v
  }

  lemma ConfigMoves(db: Db, renames: Renames, org: Option<OrgId>, c: Config)
    requires OneEach(db.skills) && Numbered(db.versions) && Moves(renames)
    ensures Follows(db.skills, renames, org, c, NewConfig(MergeAll(db, renames).skills, renames, org, c))
  {
    MergeAllIsFaithful(db, renames);
    forall n ensures NewName(MergeAll(db, renames).skills, renames, org, n) == NewName(db.skills, renames, org, n) {
      NewNameAfterMerge(db, renames, org, n);
    }
  }

  /** Every stored config -- a pipeline's own, from which its agents are built, a version's, a
      builder session's -- has its names moved as its org's dependencies are, shadowed ones
      left alone; nothing else of it changes. */
  lemma ConfigFollows(db: Db, renames: Renames)
    requires OneEach(db.skills) && Numbered(db.versions) && Moves(renames)
    ensures var db2 := ApplyRenames(db, renames);
      && db2.pipelines.Keys == db.pipelines.Keys && db2.pipelineVersions.Keys == db.pipelineVersions.Keys && db2.sessions.Keys == db.sessions.Keys
      && (forall p :: p in db.pipelines ==> HeadFollows(db, renames, db.pipelines[p], db2.pipelines[p]))
      && (forall v :: v in db.pipelineVersions ==> VersionFollows(db, renames, v, db2.pipelineVersions[v]))
      && (forall s :: s in db.sessions ==> SessionFollows(db, renames, db.sessions[s], db2.sessions[s]))
  {
    MergeAllIsFaithful(db, renames);
    forall org, c ensures Follows(db.skills, renames, org, c, NewConfig(MergeAll(db, renames).skills, renames, org, c)) {
      ConfigMoves(db, renames, org, c);
    }
  }

  /** A skill name some agent of the config lists. */
  predicate Uses(c: Config, n: Name) {
    c.Readable? && exists i, j :: 0 <= i < |c.agents| && c.agents[i].Skilled? && 0 <= j < |c.agents[i].skills| && c.agents[i].skills[j] == n
  }

  predicate DependsOn(db: Db, pv: int, n: Name) {
    exists d :: d in db.deps && db.deps[d].isSkill && db.deps[d].pipelineVersion == pv && db.deps[d].name == n
  }

  lemma UsesAfter(skills: map<SkillId, Skill>, renames: Renames, org: Option<OrgId>, c: Config, c': Config, m: Name)
    requires Follows(skills, renames, org, c, c')
    ensures Uses(c', m) <==> exists n :: Uses(c, n) && NewName(skills, renames, org, n) == m
  {
    if Uses(c', m) {
      var i, j :| 0 <= i < |c'.agents| && c'.agents[i].Skilled? && 0 <= j < |c'.agents[i].skills| && c'.agents[i].skills[j] == m;
      assert AgentFollows(skills, renames, org, c.agents[i], c'.agents[i]);
      assert Uses(c, c.agents[i].skills[j]);
    }
    if n :| Uses(c, n) && NewName(skills, renames, org, n) == m {
      var i, j :| 0 <= i < |c.agents| && c.agents[i].Skilled? && 0 <= j < |c.agents[i].skills| && c.agents[i].skills[j] == n;
      assert AgentFollows(skills, renames, org, c.agents[i], c'.agents[i]);
      assert c'.agents[i].skills[j] == m;
    }
  }

  lemma DependsAfter(db: Db, renames: Renames, pv: int, org: Option<OrgId>, m: Name)
    requires OneEach(db.skills) && Numbered(db.versions) && Moves(renames) && OrgOf(db, pv) == Some(org)
    ensures DependsOn(ApplyRenames(db, renames), pv, m) <==> exists n :: DependsOn(db, pv, n) && NewName(db.skills, renames, org, n) == m
  {
    MergeAllIsFaithful(db, renames);
    var db2 := ApplyRenames(db, renames);
    if DependsOn(db2, pv, m) {
      var d :| d in db2.deps && db2.deps[d].isSkill && db2.deps[d].pipelineVersion == pv && db2.deps[d].name == m;
      DepAfter(db, renames, pv, org, d);
      assert DependsOn(db, pv, db.deps[d].name);
    }
    if n :| DependsOn(db, pv, n) && NewName(db.skills, renames, org, n) == m {
      var d :| d in db.deps && db.deps[d].isSkill && db.deps[d].pipelineVersion == pv && db.deps[d].name == n;
      DepAfter(db, renames, pv, org, d);
      assert db2.deps[d].name == m;
    }
  }

  /** So a pipeline whose own config lists exactly what its version depends on still does, and
      every listed name still finds its pin. */
  lemma HeadAgreesWithDependencies(db: Db, renames: Renames, p: int, pv: int)
    requires OneEach(db.skills) && Numbered(db.versions) && Moves(renames)
    requires p in db.pipelines && pv in db.pipelineVersions && db.pipelineVersions[pv].pipeline == p
    requires forall n :: Uses(db.pipelines[p].config, n) ==> DependsOn(db, pv, n)
    ensures var db2 := ApplyRenames(db, renames);
      && p in db2.pipelines && (forall m :: Uses(db2.pipelines[p].config, m) ==> DependsOn(db2, pv, m))
      && ((forall n :: DependsOn(db, pv, n) ==> Uses(db.pipelines[p].config, n)) ==> forall m :: DependsOn(db2, pv, m) ==> Uses(db2.pipelines[p].config, m))
  {
    var db2, org := ApplyRenames(db, renames), db.pipelines[p].org;
    ConfigFollows(db, renames);
    forall m ensures Uses(db2.pipelines[p].config, m) <==> exists n :: Uses(db.pipelines[p].config, n) && NewName(db.skills, renames, org, n) == m {
      UsesAfter(db.skills, renames, org, db.pipelines[p].config, db2.pipelines[p].config, m);
    }
    forall m ensures DependsOn(db2, pv, m) <==> exists n :: DependsOn(db, pv, n) && NewName(db.skills, renames, org, n) == m {
      DependsAfter(db, renames, pv, org, m);
    }
  }

  /** The rename list of the upgrade, names numbered: 1 security, 2 and 3 the two intakes,
      4 response, 5 contractors; 11, 12, 14 and 15 what they become. */
  const UPGRADE: Renames := [(1, 11), (3, 12), (2, 12), (4, 14), (5, 15)]

  /** Under the stated preconditions -- no version names both intakes, nor an old name beside
      the new one it becomes -- nothing runs together. */
  lemma UpgradeIsConsistent(db: Db, pv: int, org: Option<OrgId>)
    requires forall d, e :: d in db.deps && e in db.deps && Pins(db, d, pv) && Pins(db, e, pv) && db.deps[d].name != db.deps[e].name ==>
      {db.deps[d].name, db.deps[e].name} !in {{2, 3}, {1, 11}, {2, 12}, {3, 12}, {4, 14}, {5, 15}}
    ensures Consistent(db, UPGRADE, pv, org)
  {
    forall n ensures Renamed(UPGRADE, n) == if n == 1 then 11 else if n == 2 || n == 3 then 12 else if n == 4 then 14 else if n == 5 then 15 else n {
      RenamedByUpgrade(n);
    }
    assert Sources(UPGRADE) == {1, 2, 3, 4, 5} by { assert UPGRADE[0].0 == 1 && UPGRADE[1].0 == 3 && UPGRADE[2].0 == 2 && UPGRADE[3].0 == 4 && UPGRADE[4].0 == 5; }
  }

  lemma RenamedByUpgrade(n: Name)
    ensures Renamed(UPGRADE, n) == if n == 1 then 11 else if n == 2 || n == 3 then 12 else if n == 4 then 14 else if n == 5 then 15 else n
  {
    var r4, r3, r2, r1 := [(1, 11), (3, 12), (2, 12), (4, 14)], [(1, 11), (3, 12), (2, 12)], [(1, 11), (3, 12)], [(1, 11)];
    assert UPGRADE[..4] == r4 && r4[..3] == r3 && r3[..2] == r2 && r2[..1] == r1 && r1[..0] == [];
    assert Renamed([], n) == n;
    assert Renamed(r1, n) == if n == 1 then 11 else n;
    assert Renamed(r2, n) == if n == 3 then 12 else Renamed(r1, n);
    assert Renamed(r3, n) == if n == 2 then 12 else Renamed(r2, n);
    assert Renamed(r4, n) == if n == 4 then 14 else Renamed(r3, n);
  }
}
