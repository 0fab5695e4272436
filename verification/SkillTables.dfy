/** The tables the skill-name migration rewrites
    (`alembic/versions/w0x1y2z3a4b5_drop_builtin_skill_name_suffixes.py`) and what it makes of
    them. A name stands for itself; only equality of names matters. */
module SkillTables {
  import opened Basics

  type Name = int
  type SkillId = int
  type VersionId = int
  type OrgId = int

  /** `org` is `None` for the platform tier. */
  datatype Skill = Skill(name: Name, org: Option<OrgId>)
  /** A snapshot; `title` is the cosmetic name inside its config and `body` the rest of it. */
  datatype Version = Version(skill: SkillId, number: int, created: int, body: int, title: Name)
  datatype Dep = Dep(pipelineVersion: int, isSkill: bool, name: Name, resource: int, pin: Option<VersionId>)
  /** An agent entry without a `skills` list is `Plain`. */
  datatype Agent = Plain | Skilled(skills: seq<Name>)
  datatype Config = Unreadable | Readable(agents: seq<Agent>)
  datatype Pipeline = Pipeline(org: Option<OrgId>, config: Config)
  datatype PipelineVersion = PipelineVersion(pipeline: int, config: Config)
  datatype Session = Session(org: Option<OrgId>, spec: Config)

  type Versions = map<VersionId, Version>

  datatype Db = Db(
    skills: map<SkillId, Skill>,
    versions: Versions,
    deps: map<int, Dep>,
    pipelines: map<int, Pipeline>,
    pipelineVersions: map<int, PipelineVersion>,
    sessions: map<int, Session>)

  type Renames = seq<(Name, Name)>

  const RENUMBER_SHIFT: int := 1_000_000

  // ------------------------------------------------------------------ one rename

  function PlatformIds(skills: map<SkillId, Skill>, name: Name): set<SkillId> {
    set s | s in skills && skills[s] == Skill(name, None)
  }

  /** The one platform skill of this name, if there is one. */
  function Platform(skills: map<SkillId, Skill>, name: Name): Option<SkillId> { Newest(PlatformIds(skills, name)) }

  /** `ORDER BY created_at, id` */
  predicate Before(vs: Versions, a: VersionId, b: VersionId)
    requires a in vs && b in vs
  {
    vs[a].created < vs[b].created || (vs[a].created == vs[b].created && a < b)
  }

  function RowsOf(vs: Versions, skill: SkillId): set<VersionId> { set v | v in vs && vs[v].skill == skill }

  function Earlier(vs: Versions, rows: set<VersionId>, v: VersionId): set<VersionId>
    requires v in vs && rows <= vs.Keys
  {
    set x | x in rows && Before(vs, x, v)
  }

  /** The two histories as one, numbered 1 to n in order of creation. */
  function MergedVersions(vs: Versions, from: SkillId, into: SkillId): Versions {
    var rows := RowsOf(vs, from) + RowsOf(vs, into);
    map v | v in vs :: if v in rows then vs[v].(skill := into, number := 1 + |Earlier(vs, rows, v)|) else vs[v]
  }

  function FollowedDeps(deps: map<int, Dep>, from: SkillId, into: SkillId): map<int, Dep> {
    map d | d in deps :: if deps[d].isSkill && deps[d].resource == from then deps[d].(resource := into) else deps[d]
  }

  function MergeOrRename(db: Db, source: Name, target: Name): Db {
    var from, into := Platform(db.skills, source), Platform(db.skills, target);
    if from.None? then db
    else if into.None? then db.(skills := db.skills[from.value := db.skills[from.value].(name := target)])
    else db.(versions := MergedVersions(db.versions, from.value, into.value),
             deps := FollowedDeps(db.deps, from.value, into.value),
             skills := db.skills - {from.value})
  }

  function MergeAll(db: Db, renames: Renames): Db
    decreases |renames|
  {
    if renames == [] then db else MergeAll(MergeOrRename(db, renames[0].0, renames[0].1), renames[1..])
  }

  // ------------------------------------------------------------------ names stored as data

  function Sources(renames: Renames): set<Name> { set i | 0 <= i < |renames| :: renames[i].0 }
  function Targets(renames: Renames): set<Name> { set i | 0 <= i < |renames| :: renames[i].1 }

  /** `dict(renames)`: a later pair for the same name wins. */
  function Renamed(renames: Renames, n: Name): Name
    decreases |renames|
  {
    if renames == [] then n
    else if renames[|renames| - 1].0 == n then renames[|renames| - 1].1
    else Renamed(renames[..|renames| - 1], n)
  }

  /** An org's own skill under an old name keeps that name throughout the org's data. */
  predicate Shadowed(skills: map<SkillId, Skill>, org: Option<OrgId>, n: Name) {
    org.Some? && exists s :: s in skills && skills[s] == Skill(n, org)
  }

  function NewName(skills: map<SkillId, Skill>, renames: Renames, org: Option<OrgId>, n: Name): Name {
    if n !in Sources(renames) || Shadowed(skills, org, n) then n else Renamed(renames, n)
  }

  function NewNames(skills: map<SkillId, Skill>, renames: Renames, org: Option<OrgId>, names: seq<Name>): seq<Name> {
    seq(|names|, i requires 0 <= i < |names| => NewName(skills, renames, org, names[i]))
  }

  function NewAgent(skills: map<SkillId, Skill>, renames: Renames, org: Option<OrgId>, a: Agent): Agent {
    match a
    case Plain => a
    case Skilled(names) => Skilled(NewNames(skills, renames, org, names))
  }

  function NewConfig(skills: map<SkillId, Skill>, renames: Renames, org: Option<OrgId>, c: Config): Config {
    match c
    case Unreadable => c
    case Readable(agents) => Readable(seq(|agents|, i requires 0 <= i < |agents| => NewAgent(skills, renames, org, agents[i])))
  }

  /** The org a pipeline version belongs to; `None` when the join finds no pipeline. */
  function OrgOf(db: Db, pv: int): Option<Option<OrgId>> {
    if pv in db.pipelineVersions && db.pipelineVersions[pv].pipeline in db.pipelines
    then Some(db.pipelines[db.pipelineVersions[pv].pipeline].org) else None
  }

  function NewTitle(db: Db, renames: Renames, v: Version): Version {
    if v.skill in db.skills && db.skills[v.skill].org.None? && db.skills[v.skill].name in Targets(renames) && v.title in Sources(renames)
    then v.(title := db.skills[v.skill].name) else v
  }

  function TitlesRewritten(db: Db, renames: Renames): Versions {
    map v | v in db.versions :: NewTitle(db, renames, db.versions[v])
  }

  function PipelineRewritten(skills: map<SkillId, Skill>, renames: Renames, p: Pipeline): Pipeline {
    p.(config := NewConfig(skills, renames, p.org, p.config))
  }

  function PipelinesRewritten(db: Db, renames: Renames): map<int, Pipeline> {
    map p | p in db.pipelines :: PipelineRewritten(db.skills, renames, db.pipelines[p])
  }

  function VersionRewritten(db: Db, renames: Renames, v: PipelineVersion): PipelineVersion {
    if v.pipeline in db.pipelines then v.(config := NewConfig(db.skills, renames, db.pipelines[v.pipeline].org, v.config)) else v
  }

  function VersionsRewritten(db: Db, renames: Renames): map<int, PipelineVersion> {
    map v | v in db.pipelineVersions :: VersionRewritten(db, renames, db.pipelineVersions[v])
  }

  function SessionRewritten(skills: map<SkillId, Skill>, renames: Renames, s: Session): Session {
    s.(spec := NewConfig(skills, renames, s.org, s.spec))
  }

  function SessionsRewritten(db: Db, renames: Renames): map<int, Session> {
    map s | s in db.sessions :: SessionRewritten(db.skills, renames, db.sessions[s])
  }

  function DepRewritten(db: Db, renames: Renames, d: Dep): Dep {
    if d.isSkill && OrgOf(db, d.pipelineVersion).Some? then d.(name := NewName(db.skills, renames, OrgOf(db, d.pipelineVersion).value, d.name)) else d
  }

  function DepsRewritten(db: Db, renames: Renames): map<int, Dep> {
    map d | d in db.deps :: DepRewritten(db, renames, db.deps[d])
  }

  function Rewritten(db: Db, renames: Renames): Db {
    Db(db.skills, TitlesRewritten(db, renames), DepsRewritten(db, renames), PipelinesRewritten(db, renames),
       VersionsRewritten(db, renames), SessionsRewritten(db, renames))
  }

  function ApplyRenames(db: Db, renames: Renames): Db { Rewritten(MergeAll(db, renames), renames) }
}
