/**
 The skill catalog of a prompt: the plugins' blocks, then every skill no block has taken.

 `Catalog` says which entries the rendering consists of and `CatalogLines` is the loop that
 collects them. An entry keeps the skill it renders, because two lines may read alike. Whether a
 name and a description, or a preamble, may be shown are facts about those texts, carried along as
 `presentable`; the rules behind them are not part of this model.
 */
module SkillCatalog {
  import opened Prelude

  datatype Skill = Skill(
    name: string, description: string, presentable: bool, userOwned: bool,
    pythonDeps: seq<string>, npmDeps: seq<string>)

  datatype Preamble = Preamble(text: string, presentable: bool)

  datatype Plugin = Plugin(skills: seq<string>, preamble: Option<Preamble>)

  datatype Entry = Heading(text: string) | Member(skill: Skill, text: string)

  type Render = Skill -> Option<string>

  // ----- One line -----

  function SkillLine(skill: Skill): Option<string> {
    if !skill.presentable then None
    else Some("- " + skill.name + ": " + skill.description + if skill.userOwned then " (yours)" else "")
  }

  function Hints(skill: Skill): seq<string> {
    (if skill.pythonDeps == [] then [] else ["pip install --user " + Join(skill.pythonDeps, " ")])
    + (if skill.npmDeps == [] then [] else ["npm install --ignore-scripts " + Join(skill.npmDeps, " ")])
  }

  function SkillSummaryLine(skill: Skill): Option<string> {
    var base := SkillLine(skill);
    if base.None? || Hints(skill) == [] then base
    else Some(base.value + " [" + Join(Hints(skill), "; ") + "]")
  }

  // ----- The catalog as entries -----

  function FindSkill(skills: seq<Skill>, name: string): (found: Option<Skill>)
    ensures found.Some? ==> found.value in skills && found.value.name == name
    ensures found.None? ==> forall s | s in skills :: s.name != name
  {
    if skills == [] then None
    else if skills[0].name == name then Some(skills[0])
    else FindSkill(skills[1..], name)
  }

  function MembersOf(names: seq<string>, skills: seq<Skill>): (members: seq<Skill>)
    ensures forall s | s in members :: s in skills && s.name in names
  {
    if names == [] then []
    else
      var found := FindSkill(skills, names[|names| - 1]);
      MembersOf(names[..|names| - 1], skills) + if found.Some? then [found.value] else []
  }

  function Rendered(skills: seq<Skill>, render: Render): (entries: seq<Entry>)
    ensures forall e | e in entries :: e.Member? && e.skill in skills && render(e.skill) == Some(e.text)
  {
    if skills == [] then []
    else
      var skill := skills[|skills| - 1];
      Rendered(skills[..|skills| - 1], render)
      + if render(skill).Some? then [Member(skill, render(skill).value)] else []
  }

  function HeadingOf(plugin: Plugin): seq<Entry> {
    if plugin.preamble.Some? && plugin.preamble.value.presentable
    then [Heading("- " + plugin.preamble.value.text)] else []
  }

  function Block(plugin: Plugin, skills: seq<Skill>, render: Render): seq<Entry> {
    var members := Rendered(MembersOf(plugin.skills, skills), render);
    if members == [] then [] else HeadingOf(plugin) + members
  }

  function Blocks(plugins: seq<Plugin>, skills: seq<Skill>, render: Render): seq<Entry> {
    if plugins == [] then []
    else Blocks(plugins[..|plugins| - 1], skills, render) + Block(plugins[|plugins| - 1], skills, render)
  }

  function NamesIn(skills: seq<Skill>): set<string> {
    set s | s in skills :: s.name
  }

  /** The names a plugin's block takes. */
  function Takes(plugin: Plugin, skills: seq<Skill>, render: Render): set<string> {
    var members := MembersOf(plugin.skills, skills);
    if Rendered(members, render) == [] then {} else NamesIn(members)
  }

  /** The names the rendered blocks have taken. */
  function Grouped(plugins: seq<Plugin>, skills: seq<Skill>, render: Render): set<string> {
    if plugins == [] then {}
    else Grouped(plugins[..|plugins| - 1], skills, render) + Takes(plugins[|plugins| - 1], skills, render)
  }

  function Others(skills: seq<Skill>, grouped: set<string>): seq<Skill> {
    if skills == [] then []
    else
      var skill := skills[|skills| - 1];
      Others(skills[..|skills| - 1], grouped) + if skill.name in grouped then [] else [skill]
  }

  function Catalog(skills: seq<Skill>, plugins: seq<Plugin>, render: Render): seq<Entry> {
    Blocks(plugins, skills, render) + Rendered(Others(skills, Grouped(plugins, skills, render)), render)
  }

  lemma NextPlugin(plugins: seq<Plugin>, i: nat, skills: seq<Skill>, render: Render)
    requires i < |plugins|
    ensures Blocks(plugins[..i + 1], skills, render)
         == Blocks(plugins[..i], skills, render) + Block(plugins[i], skills, render)
    ensures Grouped(plugins[..i + 1], skills, render)
         == Grouped(plugins[..i], skills, render) + Takes(plugins[i], skills, render)
  {
    assert plugins[..i + 1][..i] == plugins[..i];
  }

  /** One plugin's turn. */
  method AddBlock(
      plugin: Plugin, skills: seq<Skill>, render: Render, lines: seq<Entry>, grouped: set<string>)
    returns (lines': seq<Entry>, grouped': set<string>)
    ensures lines' == lines + Block(plugin, skills, render)
    ensures grouped' == grouped + Takes(plugin, skills, render)
  {
    lines', grouped' := lines, grouped;
    var members := MembersOf(plugin.skills, skills);
    var memberLines := Rendered(members, render);
    if memberLines == [] {
      return;
    }
    if plugin.preamble.Some? && plugin.preamble.value.presentable {
      lines' := lines' + [Heading("- " + plugin.preamble.value.text)];
    }
    grouped' := grouped' + NamesIn(members);
    lines' := lines' + memberLines;
    assert lines' == lines + (HeadingOf(plugin) + memberLines);
  }

  method CatalogLines(skills: seq<Skill>, plugins: seq<Plugin>, render: Render) returns (lines: seq<Entry>)
    ensures lines == Catalog(skills, plugins, render)
  {
    lines := [];
    var grouped: set<string> := {};
    var i := 0;
    while i < |plugins|
      invariant i <= |plugins|
      invariant lines == Blocks(plugins[..i], skills, render)
      invariant grouped == Grouped(plugins[..i], skills, render)
    {
      NextPlugin(plugins, i, skills, render);
      lines, grouped := AddBlock(plugins[i], skills, render, lines, grouped);
      i := i + 1;
    }
    assert plugins[..i] == plugins;
    lines := lines + Rendered(Others(skills, grouped), render);
  }

  // ----- How often a skill appears -----

  ghost predicate DistinctNames(skills: seq<Skill>) {
    forall i, j | 0 <= i < j < |skills| :: skills[i].name != skills[j].name
  }

  ghost function Appearances(entries: seq<Entry>, skill: Skill): nat {
    if entries == [] then 0
    else
      var last := entries[|entries| - 1];
      Appearances(entries[..|entries| - 1], skill) + if last.Member? && last.skill == skill then 1 else 0
  }

  /** How often plugins list a name. */
  ghost function Mentions(plugins: seq<Plugin>, name: string): nat {
    if plugins == [] then 0
    else Mentions(plugins[..|plugins| - 1], name) + multiset(plugins[|plugins| - 1].skills)[name]
  }

  lemma {:induction false} AppearancesAdd(a: seq<Entry>, b: seq<Entry>, skill: Skill)
    ensures Appearances(a + b, skill) == Appearances(a, skill) + Appearances(b, skill)
    decreases |b|
  {
    if b == [] {
      assert a + b == a;
    } else {
      var shorter := b[..|b| - 1];
      assert (a + b)[..|a + b| - 1] == a + shorter;
      AppearancesAdd(a, shorter, skill);
    }
  }

  lemma SplitLast<T>(s: seq<T>, x: T)
    requires s != []
    ensures multiset(s)[x] == multiset(s[..|s| - 1])[x] + if s[|s| - 1] == x then 1 else 0
  {
    assert s == s[..|s| - 1] + [s[|s| - 1]];
  }

  lemma {:induction false} RenderedOnceEach(skills: seq<Skill>, render: Render, skill: Skill)
    ensures Appearances(Rendered(skills, render), skill) ==
      if render(skill).Some? then multiset(skills)[skill] else 0
  {
    if skills != [] {
      var shorter := skills[..|skills| - 1];
      var last := skills[|skills| - 1];
      RenderedOnceEach(shorter, render, skill);
      SplitLast(skills, skill);
      var line := if render(last).Some? then [Member(last, render(last).value)] else [];
      AppearancesAdd(Rendered(shorter, render), line, skill);
      assert line != [] ==> line[..0] == [];
    }
  }

  lemma FindsItself(skills: seq<Skill>, skill: Skill)
    requires DistinctNames(skills) && skill in skills
    ensures FindSkill(skills, skill.name) == Some(skill)
  {}

  lemma {:induction false} MembersAsListed(names: seq<string>, skills: seq<Skill>, skill: Skill)
    requires DistinctNames(skills) && skill in skills
    ensures multiset(MembersOf(names, skills))[skill] == multiset(names)[skill.name]
  {
    if names != [] {
      MembersAsListed(names[..|names| - 1], skills, skill);
      SplitLast(names, skill.name);
      FindsItself(skills, skill);
    }
  }

  lemma BlockMentions(plugin: Plugin, skills: seq<Skill>, render: Render, skill: Skill)
    requires DistinctNames(skills) && skill in skills && render(skill).Some?
    ensures Appearances(Block(plugin, skills, render), skill) == multiset(plugin.skills)[skill.name]
  {
    var members := MembersOf(plugin.skills, skills);
    RenderedOnceEach(members, render, skill);
    MembersAsListed(plugin.skills, skills, skill);
    AppearancesAdd(HeadingOf(plugin), Rendered(members, render), skill);
  }

  lemma {:induction false} BlocksMention(plugins: seq<Plugin>, skills: seq<Skill>, render: Render, skill: Skill)
    requires DistinctNames(skills) && skill in skills && render(skill).Some?
    ensures Appearances(Blocks(plugins, skills, render), skill) == Mentions(plugins, skill.name)
    ensures skill.name in Grouped(plugins, skills, render) <==> Mentions(plugins, skill.name) > 0
  {
    if plugins != [] {
      var before := plugins[..|plugins| - 1];
      var plugin := plugins[|plugins| - 1];
      var members := MembersOf(plugin.skills, skills);
      BlocksMention(before, skills, render, skill);
      BlockMentions(plugin, skills, render, skill);
      AppearancesAdd(Blocks(before, skills, render), Block(plugin, skills, render), skill);
      MembersAsListed(plugin.skills, skills, skill);
      assert skill in members ==> skill.name in NamesIn(members);
      RenderedOnceEach(members, render, skill);
      if skill.name in NamesIn(members) {
        var s :| s in members && s.name == skill.name;
        FindsItself(skills, s);
        FindsItself(skills, skill);
      }
    }
  }

  lemma {:induction false} OthersOnce(skills: seq<Skill>, grouped: set<string>, skill: Skill)
    ensures multiset(Others(skills, grouped))[skill] ==
      if skill.name in grouped then 0 else multiset(skills)[skill]
  {
    if skills != [] {
      OthersOnce(skills[..|skills| - 1], grouped, skill);
      SplitLast(skills, skill);
    }
  }

  /** With distinct names, a skill that can be shown appears once for every time a plugin lists it,
      and exactly once if none does. */
  lemma AppearancesAreExact(skills: seq<Skill>, plugins: seq<Plugin>, render: Render, skill: Skill)
    requires DistinctNames(skills) && skill in skills && render(skill).Some?
    ensures Appearances(Catalog(skills, plugins, render), skill) ==
      if Mentions(plugins, skill.name) > 0 then Mentions(plugins, skill.name) else 1
  {
    var grouped := Grouped(plugins, skills, render);
    var others := Others(skills, grouped);
    BlocksMention(plugins, skills, render, skill);
    AppearancesAdd(Blocks(plugins, skills, render), Rendered(others, render), skill);
    RenderedOnceEach(others, render, skill);
    OthersOnce(skills, grouped, skill);
    assert Distinct(skills);
    OccursOnce(skills, skill);
  }

  // ----- What may appear -----

  /** A member entry is the line of a skill of the catalog, one that can be shown. */
  ghost predicate ShowsSkills(entries: seq<Entry>, skills: seq<Skill>, render: Render) {
    forall e | e in entries && e.Member? :: e.skill in skills && render(e.skill) == Some(e.text)
  }

  lemma {:induction false} BlocksShowSkills(plugins: seq<Plugin>, skills: seq<Skill>, render: Render)
    ensures ShowsSkills(Blocks(plugins, skills, render), skills, render)
  {
    if plugins != [] {
      BlocksShowSkills(plugins[..|plugins| - 1], skills, render);
    }
  }

  lemma {:induction false} OthersAreSkills(skills: seq<Skill>, grouped: set<string>)
    ensures forall s | s in Others(skills, grouped) :: s in skills
  {
    if skills != [] {
      OthersAreSkills(skills[..|skills| - 1], grouped);
    }
  }

  /** Nothing else appears: no skill that cannot be shown, and no text but its own line. */
  lemma OnlySkillsAreShown(skills: seq<Skill>, plugins: seq<Plugin>, render: Render)
    ensures ShowsSkills(Catalog(skills, plugins, render), skills, render)
  {
    BlocksShowSkills(plugins, skills, render);
    OthersAreSkills(skills, Grouped(plugins, skills, render));
  }

  /** The entry is the plugin's preamble, and one that may be shown. */
  ghost predicate Introduces(plugin: Plugin, entry: Entry) {
    && plugin.preamble.Some? && plugin.preamble.value.presentable
    && entry == Heading("- " + plugin.preamble.value.text)
  }

  /** A heading stands directly before a member of the plugin it introduces. */
  ghost predicate HeadsAMember(entries: seq<Entry>, i: nat, plugins: seq<Plugin>)
    requires i < |entries|
  {
    && i + 1 < |entries| && entries[i + 1].Member?
    && exists p | p in plugins :: Introduces(p, entries[i]) && entries[i + 1].skill.name in p.skills
  }

  ghost predicate WellHeaded(entries: seq<Entry>, plugins: seq<Plugin>) {
    forall i | 0 <= i < |entries| && entries[i].Heading? :: HeadsAMember(entries, i, plugins)
  }

  lemma WellHeadedTogether(a: seq<Entry>, b: seq<Entry>, plugins: seq<Plugin>, more: seq<Plugin>)
    requires WellHeaded(a, plugins) && WellHeaded(b, more)
    requires forall p | p in plugins :: p in more
    ensures WellHeaded(a + b, more)
  {}

  lemma BlockIsWellHeaded(plugin: Plugin, skills: seq<Skill>, render: Render)
    ensures WellHeaded(Block(plugin, skills, render), [plugin])
  {}

  lemma {:induction false} BlocksAreWellHeaded(plugins: seq<Plugin>, skills: seq<Skill>, render: Render)
    ensures WellHeaded(Blocks(plugins, skills, render), plugins)
  {
    if plugins != [] {
      var before := plugins[..|plugins| - 1];
      var plugin := plugins[|plugins| - 1];
      BlocksAreWellHeaded(before, skills, render);
      BlockIsWellHeaded(plugin, skills, render);
      WellHeadedTogether([], Block(plugin, skills, render), [], [plugin]);
      WiderIsFine(Block(plugin, skills, render), [plugin], plugins);
      WellHeadedTogether(Blocks(before, skills, render), Block(plugin, skills, render), before, plugins);
    }
  }

  lemma WiderIsFine(entries: seq<Entry>, plugins: seq<Plugin>, more: seq<Plugin>)
    requires WellHeaded(entries, plugins) && forall p | p in plugins :: p in more
    ensures WellHeaded(entries, more)
  {}

  /** No preamble without a member shown under it. */
  lemma HeadingsIntroduceMembers(skills: seq<Skill>, plugins: seq<Plugin>, render: Render)
    ensures WellHeaded(Catalog(skills, plugins, render), plugins)
  {
    var rest := Rendered(Others(skills, Grouped(plugins, skills, render)), render);
    BlocksAreWellHeaded(plugins, skills, render);
    assert forall i | 0 <= i < |rest| :: rest[i] in rest;
    WellHeadedTogether(Blocks(plugins, skills, render), rest, plugins, plugins);
  }

  // ----- What must appear, and where -----

  lemma {:induction false} RenderedKeeps(skills: seq<Skill>, render: Render, skill: Skill)
    requires skill in skills && render(skill).Some?
    ensures Member(skill, render(skill).value) in Rendered(skills, render)
  {
    var shorter := skills[..|skills| - 1];
    if skill in shorter {
      RenderedKeeps(shorter, render, skill);
    }
  }

  lemma {:induction false} MembersKeep(names: seq<string>, skills: seq<Skill>, skill: Skill)
    requires DistinctNames(skills) && skill in skills && skill.name in names
    ensures skill in MembersOf(names, skills)
  {
    var shorter := names[..|names| - 1];
    FindsItself(skills, skill);
    if skill.name in shorter {
      MembersKeep(shorter, skills, skill);
    }
  }

  /** Each plugin's block follows the blocks of the plugins before it, and nothing comes between. */
  lemma {:induction false} BlocksInOrder(plugins: seq<Plugin>, k: nat, skills: seq<Skill>, render: Render)
    requires k < |plugins|
    ensures Blocks(plugins[..k], skills, render) + Block(plugins[k], skills, render) <= Blocks(plugins, skills, render)
    decreases |plugins|
  {
    if k == |plugins| - 1 {
      assert plugins[..k + 1] == plugins;
      NextPlugin(plugins, k, skills, render);
    } else {
      var shorter := plugins[..|plugins| - 1];
      BlocksInOrder(shorter, k, skills, render);
      assert shorter[..k] == plugins[..k];
    }
  }

  /** Every member that can be shown is in its plugin's block, after the preamble if that may be
      shown. */
  lemma BlocksAreComplete(plugin: Plugin, skills: seq<Skill>, render: Render, skill: Skill)
    requires DistinctNames(skills) && skill in skills && skill.name in plugin.skills && render(skill).Some?
    ensures var block := Block(plugin, skills, render);
      && Member(skill, render(skill).value) in block
      && (plugin.preamble.Some? && plugin.preamble.value.presentable ==>
            block[0] == Heading("- " + plugin.preamble.value.text))
  {
    var members := MembersOf(plugin.skills, skills);
    MembersKeep(plugin.skills, skills, skill);
    RenderedKeeps(members, render, skill);
  }

  /** The block of every plugin is in the catalog, after the blocks of the plugins before it. */
  lemma BlocksAppear(skills: seq<Skill>, plugins: seq<Plugin>, render: Render, k: nat)
    requires k < |plugins|
    ensures Blocks(plugins[..k], skills, render) + Block(plugins[k], skills, render) <= Catalog(skills, plugins, render)
  {
    BlocksInOrder(plugins, k, skills, render);
  }

  /** The skills no plugin mentions, in the order they are listed. */
  ghost function Unmentioned(skills: seq<Skill>, plugins: seq<Plugin>): seq<Skill> {
    if skills == [] then []
    else
      var last := skills[|skills| - 1];
      Unmentioned(skills[..|skills| - 1], plugins) + if Mentions(plugins, last.name) == 0 then [last] else []
  }

  lemma {:induction false} OthersAreUnmentioned(
      all: seq<Skill>, skills: seq<Skill>, plugins: seq<Plugin>, render: Render)
    requires DistinctNames(all) && forall s | s in skills :: s in all
    ensures Rendered(Others(skills, Grouped(plugins, all, render)), render) == Rendered(Unmentioned(skills, plugins), render)
    decreases |skills|
  {
    if skills != [] {
      var shorter, last := skills[..|skills| - 1], skills[|skills| - 1];
      var grouped := Grouped(plugins, all, render);
      OthersAreUnmentioned(all, shorter, plugins, render);
      RenderedOneMore(Others(shorter, grouped), last, render);
      RenderedOneMore(Unmentioned(shorter, plugins), last, render);
      if render(last).Some? {
        BlocksMention(plugins, all, render, last);
      }
      assert Others(shorter, grouped) + [] == Others(shorter, grouped);
      assert Unmentioned(shorter, plugins) + [] == Unmentioned(shorter, plugins);
    }
  }

  lemma RenderedOneMore(skills: seq<Skill>, skill: Skill, render: Render)
    ensures Rendered(skills + [skill], render) ==
      Rendered(skills, render) + if render(skill).Some? then [Member(skill, render(skill).value)] else []
  {
    assert (skills + [skill])[..|skills|] == skills;
  }

  /** After all the plugins' blocks come the skills that no plugin mentions, as they are listed. */
  lemma UnmentionedComeLast(skills: seq<Skill>, plugins: seq<Plugin>, render: Render)
    requires DistinctNames(skills)
    ensures Catalog(skills, plugins, render) ==
      Blocks(plugins, skills, render) + Rendered(Unmentioned(skills, plugins), render)
  {
    OthersAreUnmentioned(skills, skills, plugins, render);
  }

  /** A line names its skill and says what it is for; the user's own are marked. */
  lemma ALineNamesItsSkill(skill: Skill)
    ensures SkillLine(skill).Some? <==> skill.presentable
    ensures SkillLine(skill).Some? ==>
      var shown := "- " + skill.name + ": " + skill.description;
      && shown <= SkillLine(skill).value
      && SkillLine(skill).value[|shown|..] == if skill.userOwned then " (yours)" else ""
  {}

  /** A summary line adds how to install what the skill depends on, and nothing if it is nothing. */
  lemma ASummaryNamesItsPackages(skill: Skill)
    requires skill.presentable
    ensures var line, summary := SkillLine(skill).value, SkillSummaryLine(skill).value;
      var python := "pip install --user " + Join(skill.pythonDeps, " ");
      var npm := "npm install --ignore-scripts " + Join(skill.npmDeps, " ");
      summary ==
        if skill.pythonDeps == [] && skill.npmDeps == [] then line
        else if skill.npmDeps == [] then line + " [" + python + "]"
        else if skill.pythonDeps == [] then line + " [" + npm + "]"
        else line + " [" + (python + "; " + npm) + "]"
  {
    var python := "pip install --user " + Join(skill.pythonDeps, " ");
    var npm := "npm install --ignore-scripts " + Join(skill.npmDeps, " ");
    var hints := Hints(skill);
    if skill.pythonDeps != [] && skill.npmDeps != [] {
      assert hints == [python, npm] && hints[1..] == [npm];
      assert Join(hints[1..], "; ") == npm && Join(hints, "; ") == python + "; " + npm;
    } else if skill.pythonDeps != [] {
      assert hints == [python];
    } else if skill.npmDeps != [] {
      assert hints == [npm];
    }
  }

  // ----- Plain and summary catalogs -----

  /** The second rendering shows the same skills, each with a line that goes on from the first's. */
  ghost predicate Refines(plain: Render, full: Render) {
    forall s: Skill ::
      && (plain(s).None? <==> full(s).None?)
      && (plain(s).Some? && full(s).Some? ==> plain(s).value <= full(s).value)
  }

  ghost predicate Extends(a: seq<Entry>, b: seq<Entry>) {
    |a| == |b| && forall i | 0 <= i < |a| :: a[i].text <= b[i].text
  }

  lemma {:induction false} RenderedExtends(skills: seq<Skill>, plain: Render, full: Render)
    requires Refines(plain, full)
    ensures Extends(Rendered(skills, plain), Rendered(skills, full))
  {
    if skills != [] {
      RenderedExtends(skills[..|skills| - 1], plain, full);
    }
  }

  lemma {:induction false} BlocksExtend(plugins: seq<Plugin>, skills: seq<Skill>, plain: Render, full: Render)
    requires Refines(plain, full)
    ensures Extends(Blocks(plugins, skills, plain), Blocks(plugins, skills, full))
    ensures Grouped(plugins, skills, plain) == Grouped(plugins, skills, full)
  {
    if plugins != [] {
      BlocksExtend(plugins[..|plugins| - 1], skills, plain, full);
      RenderedExtends(MembersOf(plugins[|plugins| - 1].skills, skills), plain, full);
    }
  }

  /** The summary catalog has the plain catalog's lines, each carried on. */
  lemma SummaryExtendsPlain(skills: seq<Skill>, plugins: seq<Plugin>)
    ensures Extends(Catalog(skills, plugins, SkillLine), Catalog(skills, plugins, SkillSummaryLine))
  {
    assert Refines(SkillLine, SkillSummaryLine);
    BlocksExtend(plugins, skills, SkillLine, SkillSummaryLine);
    RenderedExtends(Others(skills, Grouped(plugins, skills, SkillLine)), SkillLine, SkillSummaryLine);
  }
}
