/** Validating, packing, publishing and installing skill bundles, on trees and archives. */
module SkillBundle {
  import opened Common
  import opened Text
  import opened Trees

  datatype Runtime = Skill | SwarmSkill | AgentAsset(kind: string) | Legacy(kind: string) {
    predicate SkillLike() {
      Skill? || SwarmSkill?
    }
  }

  // ---- What the parsers make of SKILL.md and plugin.yaml; None stands for a missing or ill-typed field ----

  datatype Role = NotAnObject | WithoutId | BadId | Id(id: string)
  datatype Roles = NotAList | Listed(roles: seq<Role>)
  datatype Tags = NoTags | OneTag(tag: string) | TagList(tags: seq<Option<string>>)

  /** `kind` is already stripped and lower-cased, role ids are stripped and non-empty. */
  datatype Frontmatter = Frontmatter(
    name: Option<string>, description: Option<string>, displayName: Option<string>, author: Option<string>,
    kind: string, roles: Roles, tags: Tags)

  datatype RuntimeField = NoObject | Unsupported | Declared(runtime: Runtime)
  datatype Metadata = Metadata(author: Option<string>, tags: Option<seq<Option<string>>>)

  datatype PluginYaml = PluginYaml(
    name: Option<string>, version: Option<string>, displayName: Option<string>, description: Option<string>,
    runtime: RuntimeField, metadata: Option<Metadata>)

  /** The libraries: YAML, and the checks of wrapped agent assets, are parameters. */
  datatype Formats = Formats(
    frontmatter: Content -> Option<Frontmatter>,
    yaml: Content -> Option<PluginYaml>,
    dump: PluginYaml -> Content,
    agentIssues: (Tree, Option<PluginYaml>, Runtime) -> set<Issue>)

  datatype Issue =
    | BadPluginYaml | MissingPluginYaml | MissingReadme | LegacyRuntime | NoWorkspace
    | BadFrontmatter | NoName | BadSlug | SlugNotDirectory | SlugNotYamlName | BadYamlSlug
    | NoDescription | LongDescription | BadRoles
    | YamlName | YamlVersion | YamlDisplayName | YamlDescription | YamlRuntime | YamlMetadata | YamlAuthor | YamlTags
    | AgentIssue(text: string)

  datatype Failure =
    | Invalid(issues: set<Issue>) | NoPluginYaml | NoVersion | NoSkillDirectory | NothingPacked
    | UnsafeEntry | NoPluginRoot | NoRuntime | BadName | NotASkill | BadDestination | DestinationExists

  datatype Result<+T> = Ok(value: T) | Err(failure: Failure)

  const SKILL_MD: Path := ["SKILL.md"]
  const README: Path := ["README.md"]
  const PLUGIN_YAML: Path := ["plugin.yaml"]

  // ---- Layout ----

  ghost function Only(names: set<string>): Option<string> {
    if |names| == 1 then
      var n :| n in names; Some(n)
    else None
  }

  function SkillDirs(t: Tree): set<string> {
    set p | p in t && |p| == 2 && p[1] == "SKILL.md" && !Hidden(p[0]) :: p[0]
  }

  ghost function SkillSubdirectory(t: Tree): Option<string> {
    Only(SkillDirs(t))
  }

  function SlugOf(f: Formats, skillMd: Content): Option<string> {
    var fm := f.frontmatter(skillMd);
    if fm.Some? && fm.value.name.Some? && ValidSlug(Strip(fm.value.name.value)) then Some(Strip(fm.value.name.value))
    else None
  }

  datatype Workspace = Workspace(dir: Path, slug: string)

  /** SKILL.md at the root, or in the one child directory that has it. */
  ghost function FindWorkspace(f: Formats, t: Tree): Option<Workspace> {
    if SKILL_MD in t then
      var slug := SlugOf(f, t[SKILL_MD]);
      if slug.Some? then Some(Workspace([], slug.value)) else None
    else
      var n := SkillSubdirectory(t);
      if n.None? || [n.value, "SKILL.md"] !in t then None
      else
        var slug := SlugOf(f, t[[n.value, "SKILL.md"]]);
        if slug.None? || (ValidSlug(n.value) && slug.value != n.value) then None
        else Some(Workspace([n.value], slug.value))
  }

  function RuntimeOfKind(fm: Frontmatter): Runtime {
    if fm.kind == "team-skill" || fm.kind == "swarm-skill" then SwarmSkill else Skill
  }

  /** The runtime the SKILL.md of directory `dir` asks for. */
  function RuntimeAt(f: Formats, t: Tree, dir: Path): Option<Runtime> {
    if dir + SKILL_MD !in t then None
    else
      var fm := f.frontmatter(t[dir + SKILL_MD]);
      if fm.None? then None else Some(RuntimeOfKind(fm.value))
  }

  datatype Inferred = Inferred(runtime: Runtime, dir: Path)

  ghost function InferRuntime(f: Formats, t: Tree): Option<Inferred> {
    var ws := FindWorkspace(f, t);
    var n := SkillSubdirectory(t);
    var dir := if ws.Some? then Some(ws.value.dir) else if n.Some? then Some([n.value]) else None;
    if dir.None? then None
    else
      var rt := RuntimeAt(f, t, dir.value);
      if rt.None? then None else Some(Inferred(rt.value, dir.value))
  }

  // ---- Validation ----

  predicate RolesOk(fm: Frontmatter) {
    && fm.roles.Listed? && |fm.roles.roles| >= 2
    && (forall i :: 0 <= i < |fm.roles.roles| ==> fm.roles.roles[i].Id?)
    && (forall i, j :: 0 <= i < j < |fm.roles.roles| ==> fm.roles.roles[i] != fm.roles.roles[j])
  }

  function TeamIssues(f: Formats, t: Tree, dir: Path): set<Issue> {
    if dir + SKILL_MD !in t then {}
    else
      var fm := f.frontmatter(t[dir + SKILL_MD]);
      if fm.None? then {BadFrontmatter} else if RolesOk(fm.value) then {} else {BadRoles}
  }

  function SkillMdIssues(f: Formats, skillMd: Content, dirName: Option<string>): set<Issue> {
    var fm := f.frontmatter(skillMd);
    if fm.None? then {BadFrontmatter}
    else if fm.value.name.None? then {NoName}
    else
      var slug := Strip(fm.value.name.value);
      if slug == "" then {NoName}
      else if !ValidSlug(slug) then {BadSlug}
      else if dirName.Some? && ValidSlug(dirName.value) && slug != dirName.value then {SlugNotDirectory}
      else {}
  }

  ghost function NestedIssues(f: Formats, t: Tree): set<Issue> {
    var n := SkillSubdirectory(t);
    if n.None? || [n.value, "SKILL.md"] !in t then {} else SkillMdIssues(f, t[[n.value, "SKILL.md"]], n)
  }

  ghost function LayoutIssues(f: Formats, t: Tree): set<Issue> {
    var unresolved :=
      if FindWorkspace(f, t).Some? then {}
      else if SKILL_MD in t then SkillMdIssues(f, t[SKILL_MD], None)
      else NestedIssues(f, t);
    if unresolved != {} then unresolved else NestedIssues(f, t)
  }

  const DESCRIPTION_MAX := 4096

  function FrontmatterIssues(fm: Frontmatter, slug: string, yamlName: string): set<Issue> {
    var name := if fm.name.None? then {NoName}
                else if !ValidSlug(Strip(fm.name.value)) then {BadSlug}
                else if Strip(fm.name.value) != slug then {SlugNotDirectory}
                else if Strip(fm.name.value) != yamlName then {SlugNotYamlName} else {};
    var description := if fm.description.None? || Strip(fm.description.value) == "" then {NoDescription}
                       else if |Strip(fm.description.value)| > DESCRIPTION_MAX then {LongDescription} else {};
    name + description
  }

  /** ^[a-z][a-z0-9-]*$, where `$` also matches before a final newline. */
  predicate PluginName(s: string) {
    var n := if s != "" && s[|s| - 1] == '\n' then |s| - 1 else |s|;
    0 < n && 'a' <= s[0] <= 'z' && forall i :: 0 <= i < n ==> SlugChar(s[i]) || s[i] == '-'
  }

  predicate Blank(s: Option<string>) {
    s.None? || Strip(s.value) == ""
  }

  function YamlIssues(y: PluginYaml): set<Issue> {
    var name :=
      if y.runtime.Declared? && y.runtime.runtime.SkillLike() then
        if Blank(y.name) then {YamlName} else if !ValidSlug(y.name.value) then {BadYamlSlug} else {}
      else if y.name.None? || !PluginName(y.name.value) then {YamlName} else {};
    name
    + (if y.version.None? || !MarketplaceVersion(y.version.value) then {YamlVersion} else {})
    + (if Blank(y.displayName) then {YamlDisplayName} else {})
    + (if Blank(y.description) then {YamlDescription} else {})
    + (if y.runtime.Declared? then {} else {YamlRuntime})
    + (if y.metadata.None? then {YamlMetadata}
       else
         (if Blank(y.metadata.value.author) then {YamlAuthor} else {})
         + (var tags := y.metadata.value.tags;
            if tags.None? || (exists i :: 0 <= i < |tags.value| && Blank(tags.value[i])) then {YamlTags} else {}))
  }

  datatype Validation = Validation(issues: set<Issue>, runtime: Option<Runtime>)

  function LoadYaml(f: Formats, t: Tree): Option<PluginYaml> {
    if PLUGIN_YAML in t then f.yaml(t[PLUGIN_YAML]) else None
  }

  function DeclaredRuntime(y: Option<PluginYaml>): Option<Runtime> {
    if y.Some? && y.value.runtime.Declared? then Some(y.value.runtime.runtime) else None
  }

  function SkillIssues(f: Formats, t: Tree, ws: Workspace, data: Option<PluginYaml>, runtime: Runtime): set<Issue> {
    var yamlName := if data.Some? then data.value.name else None;
    (if yamlName.Some? then
       (if ws.slug != yamlName.value then {SlugNotYamlName} else {})
       + (if !ValidSlug(yamlName.value) then {BadYamlSlug} else {})
     else if data.None? && !ValidSlug(ws.slug) then {BadSlug} else {})
    + (if ws.dir + SKILL_MD !in t then {BadFrontmatter}
       else
         var fm := f.frontmatter(t[ws.dir + SKILL_MD]);
         if fm.None? then {BadFrontmatter}
         else FrontmatterIssues(fm.value, ws.slug, if yamlName.Some? then yamlName.value else ws.slug))
    + (if runtime.SwarmSkill? then TeamIssues(f, t, ws.dir) else {})
  }

  /** `plugin_validate`: its errors, as a set, and the runtime it settles on. */
  ghost function Validate(f: Formats, t: Tree): Validation {
    var present := Exists(t, PLUGIN_YAML);
    var data := LoadYaml(f, t);
    var declared := DeclaredRuntime(data);
    var inferred := InferRuntime(f, t);
    var runtime := if declared.Some? then declared else if inferred.Some? then Some(inferred.value.runtime) else None;
    var layout := LayoutIssues(f, t);
    var ws := FindWorkspace(f, t);
    var kind :=
      if runtime.None? then
        if layout != {} then {}
        else (if present then {} else {MissingPluginYaml}) + (if Exists(t, README) then {} else {MissingReadme})
      else match runtime.value
        case Legacy(_) => {LegacyRuntime}
        case AgentAsset(_) => (if present then {} else {MissingPluginYaml}) + f.agentIssues(t, data, runtime.value)
        case _ =>
          if ws.Some? then SkillIssues(f, t, ws.value, data, runtime.value)
          else if layout == {} then {NoWorkspace} else {};
    Validation(
      layout + kind
      + (if present && data.None? then {BadPluginYaml} else {})
      + (if data.Some? then YamlIssues(data.value) else {}),
      runtime)
  }

  // ---- Packing ----

  const IGNORED_DIRS := {".git", "__pycache__", ".venv", "venv", ".eggs", "dist", "out", "__MACOSX"}

  predicate EndsWith(s: string, tail: string) {
    |tail| <= |s| && s[|s| - |tail|..] == tail
  }

  function LastDot(n: string): int
    ensures -1 <= LastDot(n) < |n|
  {
    if n == "" then -1 else if n[|n| - 1] == '.' then |n| - 1 else LastDot(n[..|n| - 1])
  }

  /** `PurePath.suffix`: a leading or a final dot starts no suffix. */
  function Suffix(n: string): string {
    var i := LastDot(n);
    if 0 < i < |n| - 1 then n[i..] else ""
  }

  /** The files that are packed, by their path below the packed directory. */
  predicate Kept(p: Path)
    requires p != []
  {
    && (forall i :: 0 <= i < |p| ==> p[i] !in IGNORED_DIRS && !EndsWith(p[i], ".egg-info"))
    && Suffix(p[|p| - 1]) !in {".pyc", ".pyo", ".egg-info"}
    && p[|p| - 1] != ".DS_Store"
  }

  function KeptFiles(t: Tree): Tree {
    map p | p in t && p != [] && Kept(p) :: t[p]
  }

  function StripSlashes(s: string): string {
    if s != "" && s[0] == '/' then StripSlashes(s[1..])
    else if s != "" && s[|s| - 1] == '/' then StripSlashes(s[..|s| - 1])
    else s
  }

  function ArcPrefix(prefix: string): string {
    StripSlashes(ToPosix(Strip(prefix)))
  }

  function ArcName(prefix: string, p: Path): string
    requires p != []
  {
    if prefix == "" then Join(p) else prefix + "/" + Join(p)
  }

  /** A listing of the files of a tree, each once (the source sorts it). */
  ghost predicate Lists(walk: seq<Path>, t: Tree) {
    && (forall i :: 0 <= i < |walk| ==> walk[i] in t && walk[i] != [])
    && (forall p | p in t :: p in walk)
    && (forall i, j :: 0 <= i < j < |walk| ==> walk[i] != walk[j])
  }

  /** The entries of the kept files of `walk`, in its order. */
  function TreeEntries(t: Tree, walk: seq<Path>, prefix: string, skip: set<string>): Archive
    requires forall i :: 0 <= i < |walk| ==> walk[i] in t && walk[i] != []
    decreases |walk|
  {
    if walk == [] then []
    else
      var p := walk[|walk| - 1];
      var before := TreeEntries(t, walk[..|walk| - 1], prefix, skip);
      if Kept(p) && Join(p) !in skip then before + [Entry(ArcName(prefix, p), t[p])] else before
  }

  /** `walk(d)` lists the files below each directory `d`. */
  ghost predicate Walker(t: Tree, walk: Path -> seq<Path>) {
    forall d :: Lists(walk(d), Sub(t, d))
  }

  ghost function PackSkill(f: Formats, t: Tree, name: string, prefix: string, walk: Path -> seq<Path>): Result<Archive>
    requires Walker(t, walk)
  {
    var ws := FindWorkspace(f, t);
    var dir := if ws.Some? && ws.value.slug == name then Some(ws.value.dir)
               else if [name, "SKILL.md"] in t then Some([name]) else None;
    if dir.None? || dir.value + SKILL_MD !in t then Err(NoSkillDirectory)
    else
      var readme := if README in t then [Entry(ToPosix(prefix + "/" + "README.md"), t[README])] else [];
      assert Lists(walk(dir.value), Sub(t, dir.value));
      var files := TreeEntries(Sub(t, dir.value), walk(dir.value), ArcPrefix(ToPosix(prefix + "/" + name)), {});
      if files == [] then Err(NothingPacked) else Ok(readme + files)
  }

  datatype Named = Named(name: string, version: string)

  /** The name and version (or "") the archive is called after. */
  ghost function PackName(f: Formats, t: Tree): Result<Named> {
    var data := LoadYaml(f, t);
    var runtime := Validate(f, t).runtime;
    if data.None? then
      var ws := FindWorkspace(f, t);
      if runtime.None? || !runtime.value.SkillLike() then Err(NoPluginYaml)
      else if ws.None? then Err(NoSkillDirectory)
      else Ok(Named(ws.value.slug, ""))
    else if data.value.name.None? || data.value.version.None? then Err(NoVersion)
    else if runtime.None? then Err(NoRuntime)
    else Ok(Named(data.value.name.value, data.value.version.value))
  }

  function PackPrefix(n: Named): string {
    if n.version == "" then n.name else n.name + "-" + n.version
  }

  /** `plugin_pack`: the entries of the archive it writes. */
  ghost function Pack(f: Formats, t: Tree, walk: Path -> seq<Path>): Result<Archive>
    requires Walker(t, walk)
  {
    var v := Validate(f, t);
    if v.issues != {} then Err(Invalid(v.issues))
    else if PLUGIN_YAML in t && LoadYaml(f, t).None? then Err(NoPluginYaml)
    else
      var named := PackName(f, t);
      if named.Err? then Err(named.failure)
      else if v.runtime.Some? && v.runtime.value.SkillLike() then
        PackSkill(f, t, named.value.name, PackPrefix(named.value), walk)
      else
        assert Lists(walk([]), Sub(t, []));
        Ok(TreeEntries(Sub(t, []), walk([]), ArcPrefix(PackPrefix(named.value)), {"README.md"}))
  }

  // ---- Installing ----

  /** Every file or directory called plugin.yaml. */
  function YamlPaths(t: Tree): set<Path> {
    set p, k | p in t && 0 < k <= |p| && p[k - 1] == "plugin.yaml" :: p[..k]
  }

  /** `_find_plugin_root_in_extracted`, as a path below the extraction root. */
  ghost function FindPluginRoot(f: Formats, t: Tree): Result<Path> {
    if FindWorkspace(f, t).Some? then Ok([])
    else
      var top := Only(TopDirs(t));
      if top.Some? && FindWorkspace(f, Sub(t, [top.value])).Some? then Ok([top.value])
      else if |YamlPaths(t)| == 1 then
        var p :| p in YamlPaths(t);
        Ok(p[..|p| - 1])
      else Err(NoPluginRoot)
  }

  datatype Source = Source(runtime: Runtime, name: string, dir: Option<Path>)

  ghost function ResolveForInstall(f: Formats, t: Tree): Result<Source> {
    var ws := FindWorkspace(f, t);
    if PLUGIN_YAML in t then
      var y := f.yaml(t[PLUGIN_YAML]);
      if y.None? then Err(NoPluginYaml)
      else if !y.value.runtime.Declared? then Err(NoRuntime)
      else if Blank(y.value.name) then Err(BadName)
      else
        var rt := y.value.runtime.runtime;
        var name := Strip(y.value.name.value);
        if !rt.SkillLike() then Ok(Source(rt, name, None))
        else if [name, "SKILL.md"] in t then Ok(Source(rt, name, Some([name])))
        else if ws.None? then Err(NoSkillDirectory)
        else if ws.value.slug != name then Err(BadName)
        else Ok(Source(rt, name, Some(ws.value.dir)))
    else if ws.None? then Err(NotASkill)
    else
      var rt := RuntimeAt(f, t, ws.value.dir);
      if rt.None? then Err(BadName) else Ok(Source(rt.value, ws.value.slug, Some(ws.value.dir)))
  }

  datatype Installed = Installed(name: string, files: Tree)

  /** `plugin_install`: the directory it creates below the destination, and the files it copies there. */
  ghost function Install(f: Formats, zip: Archive): Result<Installed> {
    var extracted := Extract(zip);
    if extracted.None? then Err(UnsafeEntry)
    else
      var root := FindPluginRoot(f, extracted.value);
      if root.Err? then Err(root.failure)
      else
        var t := Sub(extracted.value, root.value);
        var v := Validate(f, t);
        if v.issues != {} then Err(Invalid(v.issues))
        else
          var source := ResolveForInstall(f, t);
          if source.Err? then Err(source.failure)
          else match source.value.dir
            case Some(dir) =>
              if dir + SKILL_MD !in t then Err(NotASkill) else Ok(Installed(source.value.name, Sub(t, dir)))
            case None =>
              var name := source.value.name;
              if name == "." || name == ".." || '/' in name || '\\' in name then Err(BadDestination)
              else Ok(Installed(name, t))
  }

  // ---- Publishing ----

  function NonBlankOr(s: Option<string>, otherwise: string): string {
    if Blank(s) then otherwise else Strip(s.value)
  }

  function NonBlankTags(tags: seq<Option<string>>): seq<string> {
    if tags == [] then []
    else if Blank(tags[0]) then NonBlankTags(tags[1..])
    else [Strip(tags[0].value)] + NonBlankTags(tags[1..])
  }

  function ReadTags(fm: Frontmatter, fallback: string): seq<string> {
    var tags := match fm.tags
      case NoTags => []
      case OneTag(tag) => NonBlankTags([Some(tag)])
      case TagList(list) => NonBlankTags(list);
    if tags == [] then [fallback] else tags
  }

  function RuntimeName(rt: Runtime): string {
    match rt
    case Skill => "skill"
    case SwarmSkill => "swarmskill"
    case AgentAsset(kind) => kind
    case Legacy(kind) => kind
  }

  function Somes(tags: seq<string>): seq<Option<string>> {
    seq(|tags|, i requires 0 <= i < |tags| => Some(tags[i]))
  }

  /** The plugin.yaml synthesized for a skill that has none. */
  function SynthesizeYaml(fm: Frontmatter, slug: string, version: string, inferred: Runtime): PluginYaml {
    PluginYaml(
      Some(slug), Some(version),
      Some(NonBlankOr(fm.displayName, slug)), Some(NonBlankOr(fm.description, slug)),
      Declared(Skill),
      Some(Metadata(Some(NonBlankOr(fm.author, "unknown")), Some(Somes(ReadTags(fm, RuntimeName(inferred)))))))
  }

  /** The plugin.yaml an upload carries: the one in the bundle, else a synthesized one; its runtime becomes skill. */
  ghost function UploadYaml(f: Formats, t: Tree, version: string): Result<PluginYaml> {
    var loaded := LoadYaml(f, t);
    var ws := FindWorkspace(f, t);
    var inferred := InferRuntime(f, t);
    if loaded.Some? then Ok(loaded.value)
    else if version == "" then Err(NoVersion)
    else if inferred.None? || ws.None? || ws.value.dir + SKILL_MD !in t then Err(NoSkillDirectory)
    else
      var fm := f.frontmatter(t[ws.value.dir + SKILL_MD]);
      if fm.None? then Err(NoSkillDirectory)
      else Ok(SynthesizeYaml(fm.value, ws.value.slug, version, inferred.value.runtime))
  }

  const STAGE := "publish-zip-stage"

  /** The base name of directory `dir` of the staging area. */
  function DirName(dir: Path): string {
    if dir == [] then STAGE else dir[|dir| - 1]
  }

  /** `_prepare_publish_zip_for_upload`: the entries of the archive to upload. */
  ghost function Publish(f: Formats, zip: Archive, version: string, expectSkillLike: bool,
                         walk: Path -> seq<Path>): Result<Archive>
    requires Extract(zip).Some? ==> Walker(Extract(zip).value, walk)
  {
    var extracted := Extract(zip);
    if extracted.None? then Err(UnsafeEntry)
    else
      var root := FindPluginRoot(f, extracted.value);
      if root.Err? then Err(root.failure)
      else
        var t := Sub(extracted.value, root.value);
        var v := Validate(f, t);
        var issues := if expectSkillLike then v.issues - {MissingPluginYaml, MissingReadme} else v.issues;
        var skillLike := v.runtime.Some? && v.runtime.value.SkillLike();
        if issues != {} then Err(Invalid(issues))
        else if !skillLike then (if expectSkillLike then Err(NotASkill) else Ok(zip))
        else
          var y := UploadYaml(f, t, version);
          var inferred := InferRuntime(f, t);
          if y.Err? then Err(y.failure)
          else if inferred.None? then Err(NotASkill)
          else if y.value.runtime.Declared? && !y.value.runtime.runtime.SkillLike() then Err(NotASkill)
          else if inferred.value.runtime.SwarmSkill? && TeamIssues(f, t, inferred.value.dir) != {} then
            Err(Invalid(TeamIssues(f, t, inferred.value.dir)))
          else Repack(f, extracted.value, root.value, inferred.value.dir, y.value.(runtime := Declared(Skill)), walk)
  }

  /** plugin.yaml and README.md below the bundle's name, and the skill tree below its own directory name. */
  ghost function Repack(f: Formats, x: Tree, root: Path, dir: Path, y: PluginYaml,
                        walk: Path -> seq<Path>): Result<Archive>
    requires Walker(x, walk)
  {
    var dirName := DirName(root + dir);
    var prefix := NonBlankOr(y.name, dirName);
    var readme := if root + README in x then [Entry(ToPosix(prefix + "/" + "README.md"), x[root + README])] else [];
    assert Lists(walk(root + dir), Sub(x, root + dir));
    var files := TreeEntries(Sub(x, root + dir), walk(root + dir), ArcPrefix(ToPosix(prefix + "/" + dirName)), {});
    if files == [] then Err(NothingPacked)
    else Ok([Entry(prefix + "/" + "plugin.yaml", f.dump(y))] + readme + files)
  }
}
