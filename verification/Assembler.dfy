/** How the prompt assembler orders, groups and renders skills (services/orchestrator/src/packs/assembler.ts). */
module Assembler {
  import opened Collections
  import opened StableSort

  datatype Skill = Skill(name: string, category: string, content: string, size: int)

  datatype SkillOrdering = Alphabetical | ByCategory | BySize | AsGiven

  /** String.prototype.localeCompare of the host's locale. */
  type Collation = (string, string) -> int

  function ByName(collate: Collation): Comparator<Skill> { (a: Skill, b: Skill) => collate(a.name, b.name) }

  function ByCategoryThenName(collate: Collation): Comparator<Skill> {
    (a: Skill, b: Skill) =>
      if collate(a.category, b.category) != 0 then collate(a.category, b.category) else collate(a.name, b.name)
  }

  const BY_SIZE: Comparator<Skill> := (a: Skill, b: Skill) => a.size - b.size

  function OrderSkills(collate: Collation, ordering: SkillOrdering, skills: seq<Skill>): seq<Skill> {
    match ordering
    case Alphabetical => Sort(ByName(collate), skills)
    case ByCategory => Sort(ByCategoryThenName(collate), skills)
    case BySize => Sort(BY_SIZE, skills)
    case AsGiven => skills
  }

  function InCategory(c: string): Skill -> bool { (s: Skill) => s.category == c }

  function NotIn(c: string): Skill -> bool { (s: Skill) => s.category != c }

  /** The categories, in the order of their first skills: the insertion order of the Map of groups. */
  function Seen(skills: seq<Skill>): seq<string> {
    if skills == [] then []
    else
      var before := Seen(skills[..|skills| - 1]);
      var c := skills[|skills| - 1].category;
      if c in before then before else before + [c]
  }

  /** The skills as they are rendered: group after group. */
  function Flatten(order: seq<string>, skills: seq<Skill>): seq<Skill> {
    if order == [] then [] else Filter(InCategory(order[0]), skills) + Flatten(order[1..], skills)
  }

  /** A Map from category to skills. */
  datatype Groups = Groups(order: seq<string>, members: map<string, seq<Skill>>)

  ghost predicate IsGrouping(g: Groups, skills: seq<Skill>) {
    && g.order == Seen(skills)
    && (forall c :: c in g.members <==> c in g.order)
    && (forall c :: c in g.members ==> g.members[c] == Filter(InCategory(c), skills))
  }

  /** The Map with one skill more. */
  function WithSkill(g: Groups, s: Skill): Groups {
    var existing := if s.category in g.members then g.members[s.category] else [];
    Groups(if s.category in g.members then g.order else g.order + [s.category],
           g.members[s.category := existing + [s]])
  }

  method GroupSkillsByCategory(skills: seq<Skill>) returns (groups: Groups)
    ensures IsGrouping(groups, skills)
  {
    groups := Groups([], map[]);
    var i := 0;
    while i < |skills|
      invariant i <= |skills|
      invariant IsGrouping(groups, skills[..i])
    {
      hide IsGrouping;
      var skill := skills[i];
      GroupOneMore(groups, skills[..i], skill);
      assert skills[..i + 1] == skills[..i] + [skill];
      var existing := if skill.category in groups.members then groups.members[skill.category] else [];
      groups := Groups(if skill.category in groups.members then groups.order else groups.order + [skill.category],
                       groups.members[skill.category := existing + [skill]]);
      i := i + 1;
    }
    assert skills[..i] == skills;
  }

  lemma GroupOneMore(g: Groups, skills: seq<Skill>, s: Skill)
    requires IsGrouping(g, skills)
    ensures IsGrouping(WithSkill(g, s), skills + [s])
  {
    var g' := WithSkill(g, s);
    assert (skills + [s])[..|skills|] == skills;
    forall c | c in g'.members ensures g'.members[c] == Filter(InCategory(c), skills + [s]) {
      CategoryOneMore(skills, s, c);
      if c == s.category && c !in g.members { UnseenIsEmpty(skills, c); }
    }
  }

  lemma CategoryOneMore(skills: seq<Skill>, s: Skill, c: string)
    ensures Filter(InCategory(c), skills + [s]) == Filter(InCategory(c), skills) + if c == s.category then [s] else []
  {
    FilterAppend(InCategory(c), skills, [s]);
    assert Filter(InCategory(c), [s]) == if c == s.category then [s] else [];
  }

  lemma UnseenIsEmpty(skills: seq<Skill>, c: string)
    requires c !in Seen(skills)
    ensures Filter(InCategory(c), skills) == []
  {
    SeenIff(skills);
    forall x | x in skills ensures !InCategory(c)(x) {}
    FilterNone(InCategory(c), skills);
  }

  lemma {:induction false} SeenIff(skills: seq<Skill>)
    ensures Distinct(Seen(skills))
    ensures forall s :: s in skills ==> s.category in Seen(skills)
    ensures forall c :: c in Seen(skills) ==> exists s :: s in skills && s.category == c
  {
    if skills != [] {
      var n := |skills| - 1;
      SeenIff(skills[..n]);
      assert skills == skills[..n] + [skills[n]];
    }
  }

  // Rendering.

  datatype Item = Heading(category: string) | Entry(skill: Skill)

  function Entries(items: seq<Item>): seq<Skill> {
    if items == [] then []
    else (if items[0].Entry? then [items[0].skill] else []) + Entries(items[1..])
  }

  function Lines(item: Item): seq<string> {
    match item
    case Heading(c) => ["### " + c, ""]
    case Entry(s) => ["#### " + s.name, "", s.content, ""]
  }

  function AllLines(items: seq<Item>): seq<string> {
    if items == [] then [] else Lines(items[0]) + AllLines(items[1..])
  }

  function JoinLines(parts: seq<string>): string {
    if parts == [] then "" else if |parts| == 1 then parts[0] else parts[0] + "\n" + JoinLines(parts[1..])
  }

  /** Every entry stands below the heading of its own category, which is the last one before it. */
  ghost predicate WellPlaced(items: seq<Item>) {
    forall i :: 0 <= i < |items| && items[i].Entry? ==>
      exists h :: 0 <= h < i && items[h] == Heading(items[i].skill.category) && NoHeading(items[h + 1..i])
  }

  ghost predicate NoHeading(items: seq<Item>) { forall x :: x in items ==> x.Entry? }

  function Headings(items: seq<Item>): seq<string> {
    if items == [] then []
    else (if items[0].Heading? then [items[0].category] else []) + Headings(items[1..])
  }

  /** The text written so far, as items. */
  ghost predicate Rendering(parts: seq<string>, items: seq<Item>, headings: seq<string>, entries: seq<Skill>) {
    && parts == ["## Skills", ""] + AllLines(items)
    && Headings(items) == headings
    && Entries(items) == entries
    && WellPlaced(items)
  }

  ghost predicate Under(items: seq<Item>, h: nat, category: string) {
    h < |items| && items[h] == Heading(category) && NoHeading(items[h + 1..])
  }

  /** The text of the skills section, and the items its lines are the lines of. */
  method BuildSkillsSection(skills: seq<Skill>) returns (section: string, items: seq<Item>)
    ensures section == if skills == [] then "" else JoinLines(["## Skills", ""] + AllLines(items))
    ensures Headings(items) == Seen(skills)
    ensures Entries(items) == Flatten(Seen(skills), skills)
    ensures WellPlaced(items)
  {
    items := [];
    if |skills| == 0 {
      return "", items;
    }
    var parts := ["## Skills"];
    parts := parts + [""];
    var skillsByCategory := GroupSkillsByCategory(skills);
    var order := skillsByCategory.order;
    hide *;
    RenderingStarts(parts, order, skills);
    GroupingMeans(skillsByCategory, skills);
    var i := 0;
    while i < |order|
      invariant i <= |order|
      invariant Rendering(parts, items, order[..i], Flatten(order[..i], skills))
    {
      var category, categorySkills := order[i], skillsByCategory.members[order[i]];
      ghost var h := |items|;
      PushHeading(parts, items, order[..i], Flatten(order[..i], skills), category);
      parts := parts + ["### " + category];
      parts := parts + [""];
      items := items + [Heading(category)];
      OfCategory(category, skills);
      parts, items := PushSkills(parts, items, order[..i] + [category], Flatten(order[..i], skills), h, category,
                                 categorySkills);
      FlattenOneMore(order, i, skills);
      i := i + 1;
    }
    assert order[..i] == order;
    section := JoinLines(parts);
    RenderingMeans(parts, items, order, Flatten(order, skills));
  }

  /** The inner loop: the skills of one category below its heading. */
  method PushSkills(parts0: seq<string>, items0: seq<Item>, ghost headings: seq<string>, ghost entries: seq<Skill>,
                    ghost h: nat, ghost category: string, categorySkills: seq<Skill>)
    returns (parts: seq<string>, items: seq<Item>)
    requires Rendering(parts0, items0, headings, entries) && Under(items0, h, category)
    requires forall s :: s in categorySkills ==> s.category == category
    ensures Rendering(parts, items, headings, entries + categorySkills)
  {
    parts, items := parts0, items0;
    var j := 0;
    assert entries + categorySkills[..0] == entries;
    while j < |categorySkills|
      invariant j <= |categorySkills|
      invariant Rendering(parts, items, headings, entries + categorySkills[..j])
      invariant Under(items, h, category)
    {
      hide *;
      var skill := categorySkills[j];
      PushEntry(parts, items, headings, entries + categorySkills[..j], skill, h);
      parts := parts + ["#### " + skill.name];
      parts := parts + [""];
      parts := parts + [skill.content];
      parts := parts + [""];
      items := items + [Entry(skill)];
      assert entries + categorySkills[..j] + [skill] == entries + categorySkills[..j + 1];
      j := j + 1;
    }
    assert categorySkills[..j] == categorySkills;
  }

  lemma RenderingStarts(parts: seq<string>, order: seq<string>, skills: seq<Skill>)
    requires parts == ["## Skills"] + [""]
    ensures Rendering(parts, [], order[..0], Flatten(order[..0], skills))
  {
    assert parts == ["## Skills", ""] + AllLines([]);
  }

  lemma GroupingMeans(g: Groups, skills: seq<Skill>)
    requires IsGrouping(g, skills)
    ensures g.order == Seen(skills)
    ensures forall c :: c in g.order ==> c in g.members && g.members[c] == Filter(InCategory(c), skills)
  {
  }

  lemma RenderingMeans(parts: seq<string>, items: seq<Item>, headings: seq<string>, entries: seq<Skill>)
    requires Rendering(parts, items, headings, entries)
    ensures parts == ["## Skills", ""] + AllLines(items) && Headings(items) == headings
    ensures Entries(items) == entries && WellPlaced(items)
  {
  }

  lemma OfCategory(c: string, skills: seq<Skill>)
    ensures forall s :: s in Filter(InCategory(c), skills) ==> s.category == c
  {
    FilterMembers(InCategory(c), skills);
  }

  lemma FlattenOneMore(order: seq<string>, i: nat, skills: seq<Skill>)
    requires i < |order|
    ensures order[..i + 1] == order[..i] + [order[i]]
    ensures Flatten(order[..i + 1], skills) == Flatten(order[..i], skills) + Filter(InCategory(order[i]), skills)
  {
    FlattenAppend(order[..i], [order[i]], skills);
    assert order[..i + 1] == order[..i] + [order[i]];
    assert Flatten([order[i]], skills) == Filter(InCategory(order[i]), skills);
  }

  lemma PushHeading(parts: seq<string>, items: seq<Item>, headings: seq<string>, entries: seq<Skill>, c: string)
    requires Rendering(parts, items, headings, entries)
    ensures Rendering(parts + ["### " + c] + [""], items + [Heading(c)], headings + [c], entries)
    ensures Under(items + [Heading(c)], |items|, c)
  {
    AppendItem(items, Heading(c));
    HeadingPlaced(items, Heading(c));
    hide WellPlaced, AllLines, Entries, Headings;
    assert parts + ["### " + c] + [""] == parts + Lines(Heading(c));
    assert entries + [] == entries;
  }

  lemma PushEntry(parts: seq<string>, items: seq<Item>, headings: seq<string>, entries: seq<Skill>, s: Skill, h: nat)
    requires Rendering(parts, items, headings, entries) && Under(items, h, s.category)
    ensures Rendering(parts + ["#### " + s.name] + [""] + [s.content] + [""], items + [Entry(s)], headings,
                      entries + [s])
    ensures Under(items + [Entry(s)], h, s.category)
  {
    AppendItem(items, Entry(s));
    EntryPlaced(items, h, s);
    hide WellPlaced, AllLines, Entries, Headings;
    assert parts + ["#### " + s.name] + [""] + [s.content] + [""] == parts + Lines(Entry(s));
    assert headings + [] == headings;
  }

  lemma EntryPlaced(items: seq<Item>, h: nat, skill: Skill)
    requires WellPlaced(items) && Under(items, h, skill.category)
    ensures WellPlaced(items + [Entry(skill)]) && Under(items + [Entry(skill)], h, skill.category)
  {
    var more := items + [Entry(skill)];
    assert more[h + 1..] == items[h + 1..] + [Entry(skill)];
    forall i | 0 <= i < |more| && more[i].Entry?
      ensures exists h :: 0 <= h < i && more[h] == Heading(more[i].skill.category) && NoHeading(more[h + 1..i])
    {
      if i < |items| {
        var g :| 0 <= g < i && items[g] == Heading(items[i].skill.category) && NoHeading(items[g + 1..i]);
        assert more[g] == items[g] && more[g + 1..i] == items[g + 1..i];
      } else {
        assert more[h] == items[h] && more[h + 1..i] == items[h + 1..];
      }
    }
  }

  lemma HeadingPlaced(items: seq<Item>, x: Item)
    requires WellPlaced(items) && x.Heading?
    ensures WellPlaced(items + [x])
  {
    var more := items + [x];
    forall i | 0 <= i < |more| && more[i].Entry?
      ensures exists h :: 0 <= h < i && more[h] == Heading(more[i].skill.category) && NoHeading(more[h + 1..i])
    {
      var g :| 0 <= g < i && items[g] == Heading(items[i].skill.category) && NoHeading(items[g + 1..i]);
      assert more[g] == items[g] && more[g + 1..i] == items[g + 1..i];
    }
  }

  lemma {:induction false} AppendItem(items: seq<Item>, x: Item)
    ensures AllLines(items + [x]) == AllLines(items) + Lines(x)
    ensures Headings(items + [x]) == Headings(items) + if x.Heading? then [x.category] else []
    ensures Entries(items + [x]) == Entries(items) + if x.Entry? then [x.skill] else []
  {
    hide Lines;
    if items != [] {
      AppendItem(items[1..], x);
      assert (items + [x])[1..] == items[1..] + [x];
      assert Lines(items[0]) + (AllLines(items[1..]) + Lines(x)) == (Lines(items[0]) + AllLines(items[1..])) + Lines(x);
    } else {
      assert items + [x] == [x] && [x][1..] == [];
      assert Lines(x) + [] == Lines(x);
    }
  }

  lemma {:induction false} FlattenAppend(a: seq<string>, b: seq<string>, skills: seq<Skill>)
    ensures Flatten(a + b, skills) == Flatten(a, skills) + Flatten(b, skills)
  {
    if a == [] {
      assert a + b == b;
    } else {
      assert (a + b)[1..] == a[1..] + b;
      FlattenAppend(a[1..], b, skills);
    }
  }

  // Nothing lost, nothing repeated.

  lemma {:induction false} FlattenCategory(order: seq<string>, skills: seq<Skill>, c: string)
    requires Distinct(order)
    ensures Filter(InCategory(c), Flatten(order, skills)) == if c in order then Filter(InCategory(c), skills) else []
  {
    if order != [] {
      var own := Filter(InCategory(order[0]), skills);
      FlattenCategory(order[1..], skills, c);
      FilterAppend(InCategory(c), own, Flatten(order[1..], skills));
      FilterMembers(InCategory(order[0]), skills);
      assert order == [order[0]] + order[1..];
      if order[0] == c {
        FilterAll(InCategory(c), own);
      } else {
        FilterNone(InCategory(c), own);
      }
    }
  }

  lemma {:induction false} FilterCount<T(!new)>(p: T -> bool, s: seq<T>, x: T)
    requires p(x)
    ensures multiset(Filter(p, s))[x] == multiset(s)[x]
  {
    if s != [] {
      FilterCount(p, s[1..], x);
      assert s == [s[0]] + s[1..];
    }
  }

  /** Rendering permutes the skills it is given and keeps each category's own order. */
  lemma RenderingPermutes(skills: seq<Skill>)
    ensures multiset(Flatten(Seen(skills), skills)) == multiset(skills)
    ensures forall c :: Filter(InCategory(c), Flatten(Seen(skills), skills)) == Filter(InCategory(c), skills)
  {
    var flat := Flatten(Seen(skills), skills);
    SeenIff(skills);
    forall c ensures Filter(InCategory(c), flat) == Filter(InCategory(c), skills) {
      FlattenCategory(Seen(skills), skills, c);
      if c !in Seen(skills) {
        forall x | x in skills ensures !InCategory(c)(x) {}
        FilterNone(InCategory(c), skills);
      }
    }
    forall x ensures multiset(flat)[x] == multiset(skills)[x] {
      FilterCount(InCategory(x.category), flat, x);
      FilterCount(InCategory(x.category), skills, x);
    }
  }

  /** The skills of each category stand together. */
  ghost predicate Contiguous(skills: seq<Skill>) {
    forall i, j, k :: 0 <= i < j < k < |skills| && skills[i].category == skills[k].category
                  ==> skills[j].category == skills[i].category
  }

  lemma {:induction false} SeenHead(skills: seq<Skill>)
    requires skills != []
    ensures Seen(skills) == [skills[0].category] + Seen(Filter(NotIn(skills[0].category), skills))
  {
    var c, n := skills[0].category, |skills| - 1;
    var x, init := skills[n], skills[..n];
    assert skills == init + [x];
    FilterAppend(NotIn(c), init, [x]);
    assert Filter(NotIn(c), [x]) == if x.category != c then [x] else [];
    if n == 0 {
      assert init == [];
    } else {
      SeenHead(init);
      var f := Filter(NotIn(c), init);
      assert Seen(init) == [c] + Seen(f);
      if x.category != c {
        assert (f + [x])[..|f|] == f;
        assert x.category in Seen(init) <==> x.category in Seen(f);
        assert [c] + (Seen(f) + [x.category]) == ([c] + Seen(f)) + [x.category];
      } else {
        assert c == Seen(init)[0];
        assert f + [] == f;
      }
    }
  }

  lemma {:induction false} FlattenElsewhere(order: seq<string>, skills: seq<Skill>, c: string)
    requires c !in order
    ensures Flatten(order, skills) == Flatten(order, Filter(NotIn(c), skills))
  {
    if order != [] {
      assert order[0] in order;
      FlattenElsewhere(order[1..], skills, c);
      FilterThrough(InCategory(order[0]), NotIn(c), skills);
    }
  }

  /** If what is selected comes first, selecting it and then the rest changes nothing. */
  lemma {:induction false} SplitPrefix(c: string, skills: seq<Skill>)
    requires forall i, j :: 0 <= i < j < |skills| && skills[j].category == c ==> skills[i].category == c
    ensures Filter(InCategory(c), skills) + Filter(NotIn(c), skills) == skills
  {
    if skills != [] {
      if skills[0].category == c {
        SplitPrefix(c, skills[1..]);
        assert skills == [skills[0]] + skills[1..];
      } else {
        FilterNone(InCategory(c), skills);
        FilterAll(NotIn(c), skills);
      }
    }
  }

  lemma {:induction false} ContiguousIsFlat(skills: seq<Skill>)
    requires Contiguous(skills)
    ensures Flatten(Seen(skills), skills) == skills
    decreases |skills|
  {
    if skills != [] {
      var c := skills[0].category;
      var own, rest := Filter(InCategory(c), skills), Filter(NotIn(c), skills);
      SplitPrefix(c, skills);
      FilterMembers(InCategory(c), skills);
      FilterMembers(NotIn(c), skills);
      assert skills[0] in own;
      assert forall i :: 0 <= i < |rest| ==> rest[i] == skills[|own| + i];
      assert Contiguous(rest);
      ContiguousIsFlat(rest);
      SeenHead(skills);
      SeenIff(rest);
      assert forall s :: s in rest ==> NotIn(c)(s);
      FlattenElsewhere(Seen(rest), skills, c);
      assert Seen(skills)[1..] == Seen(rest);
    }
  }

  lemma {:induction false} FlatIsContiguous(order: seq<string>, skills: seq<Skill>)
    requires Distinct(order)
    ensures Contiguous(Flatten(order, skills))
    ensures forall s :: s in Flatten(order, skills) ==> s.category in order
  {
    if order != [] {
      FlatIsContiguous(order[1..], skills);
      FilterMembers(InCategory(order[0]), skills);
      var own, rest := Filter(InCategory(order[0]), skills), Flatten(order[1..], skills);
      assert order == [order[0]] + order[1..];
      forall i | 0 <= i < |own| ensures own[i].category == order[0] { assert own[i] in own; }
      forall i | 0 <= i < |rest| ensures rest[i].category != order[0] { assert rest[i] in rest; }
    }
  }

  /** Rendering keeps the order it is given exactly if every category stands together in it. */
  lemma RenderingKeepsOrderIff(skills: seq<Skill>)
    ensures Flatten(Seen(skills), skills) == skills <==> Contiguous(skills)
  {
    SeenIff(skills);
    FlatIsContiguous(Seen(skills), skills);
    if Contiguous(skills) { ContiguousIsFlat(skills); }
  }

  // The text, read back.

  /** The lines of a text; one more than it has line breaks. */
  function SplitLines(text: string): (lines: seq<string>)
    ensures |lines| >= 1
  {
    if text == "" then [""]
    else
      var rest := SplitLines(text[1..]);
      if text[0] == '\n' then [""] + rest else [[text[0]] + rest[0]] + rest[1..]
  }

  function SplitAll(parts: seq<string>): seq<string> {
    if parts == [] then [] else SplitLines(parts[0]) + SplitAll(parts[1..])
  }

  lemma {:induction false} SplitAtBreak(a: string, b: string)
    ensures SplitLines(a + "\n" + b) == SplitLines(a) + SplitLines(b)
  {
    var text := a + "\n" + b;
    if a == "" {
      assert text == "\n" + b && text[1..] == b;
    } else {
      SplitAtBreak(a[1..], b);
      assert text[1..] == a[1..] + "\n" + b && text[0] == a[0];
      FirstLine(a[0], SplitLines(a[1..]), SplitLines(b));
    }
  }

  lemma FirstLine(c: char, first: seq<string>, later: seq<string>)
    requires first != []
    ensures [""] + (first + later) == ([""] + first) + later
    ensures [[c] + (first + later)[0]] + (first + later)[1..] == ([[c] + first[0]] + first[1..]) + later
  {
  }

  /** Whatever the parts hold, the lines of the joined text are the lines of the parts, one part after the other. */
  lemma {:induction false} JoinReadsBack(parts: seq<string>)
    requires parts != []
    ensures SplitLines(JoinLines(parts)) == SplitAll(parts)
  {
    if |parts| == 1 {
      assert parts[1..] == [];
      assert SplitAll(parts) == SplitLines(parts[0]) + [];
    } else {
      JoinReadsBack(parts[1..]);
      SplitAtBreak(parts[0], JoinLines(parts[1..]));
    }
  }

  /** The section for one skill, in full. */
  lemma OneSkillSection(c: string, s: Skill)
    ensures JoinLines(["## Skills", ""] + AllLines([Heading(c), Entry(s)]))
         == "## Skills" + "\n" + ("" + "\n" + ("### " + c + "\n" + ("" + "\n" + ("#### " + s.name + "\n"
            + ("" + "\n" + (s.content + "\n" + ""))))))
  {
    var heading, entry := Lines(Heading(c)), Lines(Entry(s));
    assert [Heading(c), Entry(s)][1..] == [Entry(s)] && [Entry(s)][1..] == [];
    assert AllLines([Entry(s)]) == entry + [] == entry;
    assert AllLines([Heading(c), Entry(s)]) == heading + entry;
    var parts := ["## Skills", "", heading[0], heading[1], entry[0], entry[1], entry[2], entry[3]];
    assert ["## Skills", ""] + (heading + entry) == parts;
    hide AllLines, JoinLines;
    JoinEight(parts);
  }

  lemma JoinEight(parts: seq<string>)
    requires |parts| == 8
    ensures JoinLines(parts)
         == parts[0] + "\n" + (parts[1] + "\n" + (parts[2] + "\n" + (parts[3] + "\n" + (parts[4] + "\n"
            + (parts[5] + "\n" + (parts[6] + "\n" + parts[7]))))))
  {
    assert parts[0..] == parts;
    JoinStep(parts, 0);
    JoinStep(parts, 1);
    JoinStep(parts, 2);
    JoinStep(parts, 3);
    JoinStep(parts, 4);
    JoinStep(parts, 5);
    JoinStep(parts, 6);
    hide JoinLines;
  }

  lemma JoinStep(parts: seq<string>, k: nat)
    requires k + 1 < |parts|
    ensures JoinLines(parts[k..]) == parts[k] + "\n" + JoinLines(parts[k + 1..])
    ensures k + 2 == |parts| ==> JoinLines(parts[k + 1..]) == parts[k + 1]
  {
    assert parts[k..][1..] == parts[k + 1..];
  }

  // The three orderings.

  lemma ByCategoryConsistent(collate: Collation)
    requires Consistent(collate)
    ensures Consistent(ByCategoryThenName(collate))
  {
    var cmp := ByCategoryThenName(collate);
    forall a, b ensures cmp(a, b) <= 0 <==> cmp(b, a) >= 0 {
      assert collate(a.category, b.category) <= 0 <==> collate(b.category, a.category) >= 0;
      assert collate(b.category, a.category) <= 0 <==> collate(a.category, b.category) >= 0;
      assert collate(a.name, b.name) <= 0 <==> collate(b.name, a.name) >= 0;
    }
    forall a, b, c | cmp(a, b) <= 0 && cmp(b, c) <= 0 ensures cmp(a, c) <= 0 {
      TiesCompose(collate, a.category, b.category, c.category);
      assert collate(a.name, b.name) <= 0 && collate(b.name, c.name) <= 0 ==> collate(a.name, c.name) <= 0;
    }
  }

  /** If a and c tie and b lies between them, b ties with both. */
  lemma TiesCompose(collate: Collation, a: string, b: string, c: string)
    requires Consistent(collate) && collate(a, b) <= 0 && collate(b, c) <= 0
    ensures collate(a, c) <= 0
    ensures collate(a, c) == 0 ==> collate(a, b) == 0 && collate(b, c) == 0
  {
    if collate(a, c) == 0 {
      assert collate(c, a) <= 0;
      assert collate(b, a) <= 0 && collate(c, b) <= 0;
    }
  }

  /** Categories that tie are the same. */
  ghost predicate TellsApart(collate: Collation, skills: seq<Skill>) {
    forall a, b :: a in skills && b in skills && collate(a.category, b.category) == 0 ==> a.category == b.category
  }

  /** Sorted by category, equal categories have only categories that tie with them in between. */
  lemma SortedByCategoryContiguous(collate: Collation, skills: seq<Skill>)
    requires Consistent(collate) && Sorted(ByCategoryThenName(collate), skills)
    requires TellsApart(collate, skills)
    ensures Contiguous(skills)
  {
    forall i, j, k | 0 <= i < j < k < |skills| && skills[i].category == skills[k].category
      ensures skills[j].category == skills[i].category
    {
      var cmp := ByCategoryThenName(collate);
      assert cmp(skills[i], skills[j]) <= 0 && cmp(skills[j], skills[k]) <= 0;
      var (a, b) := (skills[i].category, skills[j].category);
      assert collate(a, b) <= 0 && collate(b, a) <= 0;
      assert collate(a, b) == 0;
      assert skills[i] in skills && skills[j] in skills;
    }
  }

  /** Under the category ordering, with a collation that tells the categories apart, the rendered skills
      are the sorted list itself. */
  lemma CategoryOrderingRendersSorted(collate: Collation, skills: seq<Skill>)
    requires Consistent(collate)
    requires TellsApart(collate, skills)
    ensures var sorted := OrderSkills(collate, ByCategory, skills);
            Flatten(Seen(sorted), sorted) == sorted && Sorted(ByCategoryThenName(collate), sorted)
  {
    ByCategoryConsistent(collate);
    SortSorts(ByCategoryThenName(collate), skills);
    var sorted := OrderSkills(collate, ByCategory, skills);
    forall s | s in sorted ensures s in skills { assert s in multiset(sorted); }
    SortedByCategoryContiguous(collate, sorted);
    RenderingKeepsOrderIff(sorted);
  }

  lemma ByNameConsistent(collate: Collation)
    requires Consistent(collate)
    ensures Consistent(ByName(collate))
  {
    forall a, b ensures ByName(collate)(a, b) <= 0 <==> ByName(collate)(b, a) >= 0 {
      assert collate(a.name, b.name) <= 0 <==> collate(b.name, a.name) >= 0;
    }
    forall a, b, c | ByName(collate)(a, b) <= 0 && ByName(collate)(b, c) <= 0 ensures ByName(collate)(a, c) <= 0 {
      assert collate(a.name, b.name) <= 0 && collate(b.name, c.name) <= 0;
    }
  }

  lemma SizeConsistent()
    ensures Consistent(BY_SIZE)
  {
  }

  /** What each ordering puts first. */
  predicate InOrder(collate: Collation, ordering: SkillOrdering, a: Skill, b: Skill) {
    match ordering
    case Alphabetical => collate(a.name, b.name) <= 0
    case ByCategory =>
      collate(a.category, b.category) < 0 || (collate(a.category, b.category) == 0 && collate(a.name, b.name) <= 0)
    case BySize => a.size <= b.size
    case AsGiven => true
  }

  /** Every ordering permutes the skills and puts each in its order before all that follow; given order is kept. */
  lemma OrderingMeans(collate: Collation, ordering: SkillOrdering, skills: seq<Skill>)
    requires Consistent(collate)
    ensures var sorted := OrderSkills(collate, ordering, skills);
            && multiset(sorted) == multiset(skills)
            && (forall i, j :: 0 <= i < j < |sorted| ==> InOrder(collate, ordering, sorted[i], sorted[j]))
            && (ordering.AsGiven? ==> sorted == skills)
  {
    ByCategoryConsistent(collate);
    ByNameConsistent(collate);
    SizeConsistent();
    hide Sort;
    match ordering
    case Alphabetical => SortSorts(ByName(collate), skills);
    case ByCategory => SortSorts(ByCategoryThenName(collate), skills);
    case BySize => SortSorts(BY_SIZE, skills);
    case AsGiven =>
  }

  /** For every ordering the skills in the prompt are a permutation of the pack's. */
  lemma OrderedAndRendered(collate: Collation, ordering: SkillOrdering, skills: seq<Skill>)
    requires Consistent(collate)
    ensures var sorted := OrderSkills(collate, ordering, skills);
            multiset(Flatten(Seen(sorted), sorted)) == multiset(skills)
  {
    OrderingMeans(collate, ordering, skills);
    RenderingPermutes(OrderSkills(collate, ordering, skills));
    hide OrderSkills, Flatten, Seen;
  }

  /** The other orderings do not survive the grouping: by size, a large skill is rendered before a smaller
      one of another category. */
  lemma SizeOrderingIsLost(collate: Collation)
    ensures var skills := [Skill("a", "x", "", 1), Skill("b", "y", "", 2), Skill("c", "x", "", 3)];
            var sorted := OrderSkills(collate, BySize, skills);
            sorted == skills && Flatten(Seen(sorted), sorted) != sorted
  {
    hide Sort, Flatten, Seen, Filter, Contiguous;
    var skills := [Skill("a", "x", "", 1), Skill("b", "y", "", 2), Skill("c", "x", "", 3)];
    NotContiguous(skills);
    SortIdentity(BY_SIZE, skills);
    RenderingKeepsOrderIff(skills);
  }

  lemma NotContiguous(skills: seq<Skill>)
    requires |skills| == 3 && skills[0].category == "x" && skills[1].category == "y" && skills[2].category == "x"
    ensures !Contiguous(skills)
  {
    assert "x"[0] != "y"[0];
  }
}
