/**
 * `GenerateHelpIndex`: the listing of topic names, one indented name per
 * line, in three sorted sections (commands, ISUPPORT tokens, information).
 */
module HelpIndex {
  import opened Strings
  import opened StringOrder
  import opened HelpTopics

  /** The line an entry contributes to its section: three spaces, then the name. */
  function IndentLine(name: string): (line: string)
    ensures |line| == |name| + 3 && line[3..] == name
  {
    "   " + name
  }

  lemma IndentLineInjective(a: string, b: string)
    requires IndentLine(a) == IndentLine(b)
    ensures a == b
  {
    assert a == IndentLine(a)[3..];
  }

  /** The lines contributed to section `t` by the registry keys in `keys`. */
  ghost function SectionSet(help: Registry, keys: set<string>, forOpers: bool, t: HelpEntryType): set<string> {
    set k | k in keys && k in help && Listed(help[k], forOpers) && help[k].helpType == t :: IndentLine(k)
  }

  /** Section `t` of the index: the lines of the whole registry, ascending. */
  ghost function Section(help: Registry, forOpers: bool, t: HelpEntryType): seq<string> {
    SortSet(SectionSet(help, help.Keys, forOpers, t))
  }

  /** The fixed three-section text the sections are substituted into. */
  function Template(commands: string, isupport: string, information: string): string {
    "= Help Topics =\n\nCommands:\n" + commands
    + "\n\nRPL_ISUPPORT Tokens:\n" + isupport
    + "\n\nInformation:\n" + information
  }

  /** The index text for a registry: each section joined with line breaks. */
  ghost function IndexText(help: Registry, forOpers: bool): string {
    Template(Join(Section(help, forOpers, CommandHelpEntry), '\n'),
             Join(Section(help, forOpers, ISupportHelpEntry), '\n'),
             Join(Section(help, forOpers, InformationHelpEntry), '\n'))
  }

  /** Taking one more key into account adds at most its own line, which was
      not there before. */
  lemma SectionSetAdd(help: Registry, done: set<string>, name: string, forOpers: bool, t: HelpEntryType)
    requires name in help && name !in done
    ensures multiset(SectionSet(help, done + {name}, forOpers, t)) ==
      multiset(SectionSet(help, done, forOpers, t))
      + (if Listed(help[name], forOpers) && help[name].helpType == t then multiset{IndentLine(name)} else multiset{})
  {
    var before := SectionSet(help, done, forOpers, t);
    var after := SectionSet(help, done + {name}, forOpers, t);
    assert IndentLine(name) !in before;
    if Listed(help[name], forOpers) && help[name].helpType == t {
      assert after == before + {IndentLine(name)};
    } else {
      assert after == before;
    }
  }

  /** The three slices hold the lines of the registry keys visited so far. */
  ghost predicate Accumulated(help: Registry, done: set<string>, forOpers: bool,
                              commands: seq<string>, isupport: seq<string>, information: seq<string>) {
    && multiset(commands) == multiset(SectionSet(help, done, forOpers, CommandHelpEntry))
    && multiset(isupport) == multiset(SectionSet(help, done, forOpers, ISupportHelpEntry))
    && multiset(information) == multiset(SectionSet(help, done, forOpers, InformationHelpEntry))
  }

  /** Visiting one more key of the registry appends its line to the slice
      of its type when it is listed, and changes nothing otherwise. */
  lemma AccumulateStep(help: Registry, remaining: set<string>, name: string, forOpers: bool,
                       commands: seq<string>, isupport: seq<string>, information: seq<string>)
    requires remaining <= help.Keys && name in remaining
    requires Accumulated(help, help.Keys - remaining, forOpers, commands, isupport, information)
    ensures var done := help.Keys - (remaining - {name});
      var e := help[name];
      var line := IndentLine(name);
      && (!Listed(e, forOpers) ==> Accumulated(help, done, forOpers, commands, isupport, information))
      && (Listed(e, forOpers) && e.helpType == CommandHelpEntry ==>
          Accumulated(help, done, forOpers, commands + [line], isupport, information))
      && (Listed(e, forOpers) && e.helpType == ISupportHelpEntry ==>
          Accumulated(help, done, forOpers, commands, isupport + [line], information))
      && (Listed(e, forOpers) && e.helpType == InformationHelpEntry ==>
          Accumulated(help, done, forOpers, commands, isupport, information + [line]))
  {
    var done := help.Keys - remaining;
    assert help.Keys - (remaining - {name}) == done + {name};
    SectionSetAdd(help, done, name, forOpers, CommandHelpEntry);
    SectionSetAdd(help, done, name, forOpers, ISupportHelpEntry);
    SectionSetAdd(help, done, name, forOpers, InformationHelpEntry);
  }

  /** Once every key is visited, the sorted slices are the sections. */
  lemma SortedSections(help: Registry, forOpers: bool,
                       commands: seq<string>, isupport: seq<string>, information: seq<string>)
    requires Accumulated(help, help.Keys, forOpers, commands, isupport, information)
    ensures Template(Join(SortStrings(commands), '\n'), Join(SortStrings(isupport), '\n'),
      Join(SortStrings(information), '\n')) == IndexText(help, forOpers)
  {
    SortStringsOfSet(commands, SectionSet(help, help.Keys, forOpers, CommandHelpEntry));
    SortStringsOfSet(isupport, SectionSet(help, help.Keys, forOpers, ISupportHelpEntry));
    SortStringsOfSet(information, SectionSet(help, help.Keys, forOpers, InformationHelpEntry));
  }

  /** The loop of `GenerateHelpIndex` over the registry (in whatever order the
      map is traversed), the three `sort.Strings` calls and the substitution
      into the template. Its result is `IndexText`, which depends only on the
      registry and `forOpers`. */
  method GenerateHelpIndex(help: Registry, forOpers: bool) returns (index: string)
    ensures index == IndexText(help, forOpers)
  {
    var commands, isupport, information: seq<string> := [], [], [];
    var remaining := help.Keys;
    while remaining != {}
      invariant remaining <= help.Keys
      invariant Accumulated(help, help.Keys - remaining, forOpers, commands, isupport, information)
      decreases |remaining|
    {
      var name :| name in remaining;
      var info := help[name];
      AccumulateStep(help, remaining, name, forOpers, commands, isupport, information);
      remaining := remaining - {name};
      if info.duplicate {
        continue;
      }
      if info.oper && !forOpers {
        continue;
      }
      var line := IndentLine(name);
      if info.helpType == CommandHelpEntry {
        commands := commands + [line];
      } else if info.helpType == ISupportHelpEntry {
        isupport := isupport + [line];
      } else if info.helpType == InformationHelpEntry {
        information := information + [line];
      }
    }
    assert help.Keys - remaining == help.Keys;
    SortedSections(help, forOpers, commands, isupport, information);
    commands := SortStrings(commands);
    isupport := SortStrings(isupport);
    information := SortStrings(information);
    index := Template(Join(commands, '\n'), Join(isupport, '\n'), Join(information, '\n'));
  }

  /** A name's line is in section `t` exactly when the name is a registry
      entry of type `t` that is neither an alias nor hidden from this index. */
  lemma SectionMembership(help: Registry, forOpers: bool, t: HelpEntryType, name: string)
    ensures IndentLine(name) in Section(help, forOpers, t) <==>
      name in help && Listed(help[name], forOpers) && help[name].helpType == t
  {
    if IndentLine(name) in SectionSet(help, help.Keys, forOpers, t) {
      var k :| k in help && Listed(help[k], forOpers) && help[k].helpType == t && IndentLine(k) == IndentLine(name);
      IndentLineInjective(k, name);
    }
  }

  /** Every line of a section is the indented name of a listed registry
      entry of that section's type, and the section is strictly ascending. */
  lemma SectionLines(help: Registry, forOpers: bool, t: HelpEntryType)
    ensures StrictlySorted(Section(help, forOpers, t))
    ensures forall i :: 0 <= i < |Section(help, forOpers, t)| ==>
      var line := Section(help, forOpers, t)[i];
      |line| >= 3 && line == IndentLine(line[3..]) && line[3..] in help
      && Listed(help[line[3..]], forOpers) && help[line[3..]].helpType == t
  {
    var sec := Section(help, forOpers, t);
    forall i | 0 <= i < |sec|
      ensures |sec[i]| >= 3 && sec[i] == IndentLine(sec[i][3..]) && sec[i][3..] in help
        && Listed(help[sec[i][3..]], forOpers) && help[sec[i][3..]].helpType == t
    {
      assert sec[i] in SectionSet(help, help.Keys, forOpers, t);
      var k :| k in help && Listed(help[k], forOpers) && help[k].helpType == t && IndentLine(k) == sec[i];
    }
  }

  /** A listed entry's line occurs exactly once in the whole index: once in
      the section of its own type and in neither of the other two. An entry
      that is not listed occurs in none. */
  lemma ListedExactlyOnce(help: Registry, forOpers: bool, name: string)
    requires name in help
    ensures var line := IndentLine(name);
      multiset(Section(help, forOpers, CommandHelpEntry))[line]
      + multiset(Section(help, forOpers, ISupportHelpEntry))[line]
      + multiset(Section(help, forOpers, InformationHelpEntry))[line]
      == if Listed(help[name], forOpers) then 1 else 0
    ensures forall t :: (multiset(Section(help, forOpers, t))[IndentLine(name)] ==
      if Listed(help[name], forOpers) && help[name].helpType == t then 1 else 0)
  {
    forall t ensures multiset(Section(help, forOpers, t))[IndentLine(name)] ==
      if Listed(help[name], forOpers) && help[name].helpType == t then 1 else 0
    {
      SectionMembership(help, forOpers, t, name);
    }
    SectionMembership(help, forOpers, CommandHelpEntry, name);
    SectionMembership(help, forOpers, ISupportHelpEntry, name);
    SectionMembership(help, forOpers, InformationHelpEntry, name);
  }

  /** Aliases are never listed, in either index. */
  lemma DuplicatesNeverListed(help: Registry, forOpers: bool, t: HelpEntryType, name: string)
    requires name in help && help[name].duplicate
    ensures IndentLine(name) !in Section(help, forOpers, t)
  {
    SectionMembership(help, forOpers, t, name);
  }

  /** The user index lists no operator-only entry; the operator index lists
      every entry that is not an alias, under its own type. */
  lemma OperatorEntriesOnlyInOperIndex(help: Registry, name: string)
    requires name in help
    ensures help[name].oper ==> forall t :: IndentLine(name) !in Section(help, false, t)
    ensures !help[name].duplicate ==> IndentLine(name) in Section(help, true, help[name].helpType)
  {
    forall t ensures help[name].oper ==> IndentLine(name) !in Section(help, false, t) {
      SectionMembership(help, false, t, name);
    }
    SectionMembership(help, true, help[name].helpType, name);
  }

  /** Every line of the user index is in the operator index, and the
      inclusion is strict as soon as an operator-only entry that is not an
      alias exists. */
  lemma UserIndexWithinOperIndex(help: Registry, t: HelpEntryType)
    ensures forall line :: line in Section(help, false, t) ==> line in Section(help, true, t)
    ensures (exists k :: k in help && help[k].oper && !help[k].duplicate && help[k].helpType == t) ==>
      exists line :: line in Section(help, true, t) && line !in Section(help, false, t)
  {
    forall line | line in Section(help, false, t) ensures line in Section(help, true, t) {
      var k :| k in help && Listed(help[k], false) && help[k].helpType == t && IndentLine(k) == line;
    }
    if k :| k in help && help[k].oper && !help[k].duplicate && help[k].helpType == t {
      SectionMembership(help, false, t, k);
      SectionMembership(help, true, t, k);
    }
  }

  /** A section substituted into the template shows as its own lines, or as
      one empty line when it is empty. */
  function SectionAsLines(section: seq<string>): seq<string> {
    if section == [] then [""] else section
  }

  lemma SplitSection(section: seq<string>)
    requires forall i :: 0 <= i < |section| ==> '\n' !in section[i]
    ensures Split(Join(section, '\n'), '\n') == SectionAsLines(section)
  {
    if section != [] { SplitJoin(section, '\n'); }
  }

  lemma SectionHasNoLineBreak(help: Registry, forOpers: bool, t: HelpEntryType)
    requires WellFormed(help)
    ensures forall i :: 0 <= i < |Section(help, forOpers, t)| ==> '\n' !in Section(help, forOpers, t)[i]
  {
    SectionLines(help, forOpers, t);
    var sec := Section(help, forOpers, t);
    forall i | 0 <= i < |sec| ensures '\n' !in sec[i] {
      var name := sec[i][3..];
      assert '\n' !in name;
      assert sec[i] == "   " + name;
    }
  }

  lemma CommandsHeaderLines()
    ensures "= Help Topics =\n\nCommands:\n" == "= Help Topics =" + ['\n'] + "" + ['\n'] + "Commands:" + ['\n']
  {
  }

  lemma SectionHeaderLines()
    ensures "\n\nRPL_ISUPPORT Tokens:\n" == ['\n'] + "" + ['\n'] + "RPL_ISUPPORT Tokens:" + ['\n']
    ensures "\n\nInformation:\n" == ['\n'] + "" + ['\n'] + "Information:" + ['\n']
  {
  }

  lemma AppendFive(x: string, a: string, b: string, c: string, d: string, e: string)
    ensures x + (a + b + c + d + e) == x + a + b + c + d + e
  {
  }

  /** The template as its ten lines joined by line breaks. */
  lemma TemplateAsLines(c: string, i: string, n: string)
    ensures Template(c, i, n) == "= Help Topics =" + ['\n'] + "" + ['\n'] + "Commands:" + ['\n'] + c
      + ['\n'] + "" + ['\n'] + "RPL_ISUPPORT Tokens:" + ['\n'] + i
      + ['\n'] + "" + ['\n'] + "Information:" + ['\n'] + n
  {
    CommandsHeaderLines();
    SectionHeaderLines();
    var x1 := "= Help Topics =" + ['\n'] + "" + ['\n'] + "Commands:" + ['\n'] + c;
    AppendFive(x1, ['\n'], "", ['\n'], "RPL_ISUPPORT Tokens:", ['\n']);
    var x2 := x1 + ['\n'] + "" + ['\n'] + "RPL_ISUPPORT Tokens:" + ['\n'] + i;
    AppendFive(x2, ['\n'], "", ['\n'], "Information:", ['\n']);
  }

  lemma SplitStep(p: string, y: string, prev: seq<string>)
    requires Split(p, '\n') == prev
    ensures Split(p + ['\n'] + y, '\n') == prev + Split(y, '\n')
  {
    SplitAppend(p, y, '\n');
  }

  /** Ten pieces joined by line breaks, of which the seven fixed ones have
      no line break themselves, split back into those pieces. */
  lemma TenLines(title: string, h1: string, h2: string, h3: string, e: string, c: string, i: string, n: string)
    requires '\n' !in title && '\n' !in h1 && '\n' !in h2 && '\n' !in h3 && e == []
    ensures Split(title + ['\n'] + e + ['\n'] + h1 + ['\n'] + c
      + ['\n'] + e + ['\n'] + h2 + ['\n'] + i
      + ['\n'] + e + ['\n'] + h3 + ['\n'] + n, '\n')
      == [title, e, h1] + Split(c, '\n') + [e, h2] + Split(i, '\n') + [e, h3] + Split(n, '\n')
  {
    SplitNoSeparator(title, '\n');
    SplitNoSeparator(e, '\n');
    SplitNoSeparator(h1, '\n');
    SplitNoSeparator(h2, '\n');
    SplitNoSeparator(h3, '\n');
    var p1 := title + ['\n'] + e;
    SplitStep(title, e, [title]);
    var p2 := p1 + ['\n'] + h1;
    SplitStep(p1, h1, [title, e]);
    var p3 := p2 + ['\n'] + c;
    SplitStep(p2, c, [title, e, h1]);
    var s3 := [title, e, h1] + Split(c, '\n');
    var p4 := p3 + ['\n'] + e;
    SplitStep(p3, e, s3);
    var p5 := p4 + ['\n'] + h2;
    SplitStep(p4, h2, s3 + [e]);
    var p6 := p5 + ['\n'] + i;
    SplitStep(p5, i, s3 + [e, h2]);
    var s6 := s3 + [e, h2] + Split(i, '\n');
    var p7 := p6 + ['\n'] + e;
    SplitStep(p6, e, s6);
    var p8 := p7 + ['\n'] + h3;
    SplitStep(p7, h3, s6 + [e]);
    SplitStep(p8, n, s6 + [e, h3]);
  }

  /** The template, read line by line. */
  lemma TemplateLines(c: string, i: string, n: string)
    ensures Split(Template(c, i, n), '\n') ==
      ["= Help Topics =", "", "Commands:"] + Split(c, '\n')
      + ["", "RPL_ISUPPORT Tokens:"] + Split(i, '\n')
      + ["", "Information:"] + Split(n, '\n')
  {
    TemplateAsLines(c, i, n);
    TenLines("= Help Topics =", "Commands:", "RPL_ISUPPORT Tokens:", "Information:", "", c, i, n);
  }

  /** Read line by line, the index is its header lines with the three sorted
      sections in between; this is what `helpHandler` sends as the body of an
      "index" reply. */
  lemma IndexTextLines(help: Registry, forOpers: bool)
    requires WellFormed(help)
    ensures Split(IndexText(help, forOpers), '\n') ==
      ["= Help Topics =", "", "Commands:"] + SectionAsLines(Section(help, forOpers, CommandHelpEntry))
      + ["", "RPL_ISUPPORT Tokens:"] + SectionAsLines(Section(help, forOpers, ISupportHelpEntry))
      + ["", "Information:"] + SectionAsLines(Section(help, forOpers, InformationHelpEntry))
  {
    SectionHasNoLineBreak(help, forOpers, CommandHelpEntry);
    SectionHasNoLineBreak(help, forOpers, ISupportHelpEntry);
    SectionHasNoLineBreak(help, forOpers, InformationHelpEntry);
    SplitSection(Section(help, forOpers, CommandHelpEntry));
    SplitSection(Section(help, forOpers, ISupportHelpEntry));
    SplitSection(Section(help, forOpers, InformationHelpEntry));
    TemplateLines(Join(Section(help, forOpers, CommandHelpEntry), '\n'),
                  Join(Section(help, forOpers, ISupportHelpEntry), '\n'),
                  Join(Section(help, forOpers, InformationHelpEntry), '\n'));
  }

  /** In the sample registry the user index hides the operator command
      "kill", which the operator index lists, and lists "away". */
  lemma SampleUserIndex()
    ensures IndentLine("kill") !in Section(SampleRegistry, false, CommandHelpEntry)
    ensures IndentLine("kill") in Section(SampleRegistry, true, CommandHelpEntry)
    ensures IndentLine("away") in Section(SampleRegistry, false, CommandHelpEntry)
  {
    SampleEntries();
    SectionMembership(SampleRegistry, false, CommandHelpEntry, "kill");
    SectionMembership(SampleRegistry, true, CommandHelpEntry, "kill");
    SectionMembership(SampleRegistry, false, CommandHelpEntry, "away");
  }

  lemma SampleEntries()
    ensures "kill" in SampleRegistry && SampleRegistry["kill"].oper && !SampleRegistry["kill"].duplicate
      && SampleRegistry["kill"].helpType == CommandHelpEntry
    ensures "away" in SampleRegistry && !SampleRegistry["away"].oper && !SampleRegistry["away"].duplicate
      && SampleRegistry["away"].helpType == CommandHelpEntry
    ensures "cmodes" in SampleRegistry && SampleRegistry["cmodes"].duplicate
    ensures "umodes" in SampleRegistry && SampleRegistry["umodes"].duplicate
    ensures "snomask" in SampleRegistry && SampleRegistry["snomask"].duplicate
  {
  }

  /** The aliases "cmodes", "umodes" and "snomask" are in no section of
      either index. */
  lemma SampleAliasesUnlisted(forOpers: bool, t: HelpEntryType)
    ensures IndentLine("cmodes") !in Section(SampleRegistry, forOpers, t)
    ensures IndentLine("umodes") !in Section(SampleRegistry, forOpers, t)
    ensures IndentLine("snomask") !in Section(SampleRegistry, forOpers, t)
  {
    SampleEntries();
    DuplicatesNeverListed(SampleRegistry, forOpers, t, "cmodes");
    DuplicatesNeverListed(SampleRegistry, forOpers, t, "umodes");
    DuplicatesNeverListed(SampleRegistry, forOpers, t, "snomask");
  }
}
