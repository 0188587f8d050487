/**
 * Concrete queries against the sample registry, with the placeholder index
 * texts that `irc/help.go` starts with.
 */
module HelpScenarios {
  import opened Strings
  import opened HelpTopics
  import opened HelpIndex
  import opened HelpReply

  const SampleTables: HelpTables := HelpTables(
    SampleRegistry,
    "list of all help topics for regular users",
    "list of all help topics for opers")

  lemma SampleKill()
    ensures "kill" in SampleRegistry && SampleRegistry["kill"] == HelpEntry(true, KillText, CommandHelpEntry, false)
  {
  }

  lemma NormalizeKill()
    ensures Normalize(["kill"]) == "kill"
  {
    NormalizeWord("kill");
  }

  lemma NormalizeUpperKill()
    ensures Normalize(["KILL"]) == "kill"
  {
    NormalizeSingle("KILL");
    LowerKill();
  }

  lemma LowerKill()
    ensures ToLower("KILL") == "kill"
  {
  }

  /** A one-word query for an entry the caller may see is answered with
      the entry's text under the upper-cased word, for any tables. */
  lemma WordQuery(tables: HelpTables, word: string, isOperator: bool)
    requires word != [] && word != "index" && IsLower(word)
    requires !IsSpace(word[0]) && !IsSpace(word[|word| - 1])
    requires word in tables.topics && Visible(tables.topics[word], isOperator)
    ensures Resolve(tables, [word], isOperator) == Framed(ToUpper(word), tables.topics[word].text)
  {
    NormalizeWord(word);
  }

  /** A one-word query for an entry the caller may not see is not found. */
  lemma HiddenWordQuery(tables: HelpTables, word: string, isOperator: bool)
    requires word != [] && word != "index" && IsLower(word)
    requires !IsSpace(word[0]) && !IsSpace(word[|word| - 1])
    requires word in tables.topics && !Visible(tables.topics[word], isOperator)
    ensures Resolve(tables, [word], isOperator) == NotFound
  {
    NormalizeWord(word);
  }

  /** "kill" is operator-only: a user's query for it is not found. */
  lemma KillHiddenFromUsers()
    ensures Resolve(SampleTables, ["kill"], false) == NotFound
  {
    SampleKill();
    HiddenWordQuery(SampleTables, "kill", false);
  }

  /** The reply to that query: one ERR_HELPNOTFOUND from the server carrying
      the query and "Help not found". */
  lemma KillNotFoundReply(serverName: string, clientServerName: string)
    ensures Reply(serverName, clientServerName, ["kill"], NotFound)
      == [Message(serverName, ErrHelpNotFound, ["kill", "Help not found"])]
  {
    assert ["kill"] + [HelpNotFoundText] == ["kill", "Help not found"];
  }

  lemma UpperKill()
    ensures ToUpper("kill") == "KILL"
  {
  }

  /** An operator gets the text of "kill" under "KILL". */
  lemma KillShownToOperators()
    ensures Resolve(SampleTables, ["kill"], true) == Framed("KILL", KillText)
  {
    SampleKill();
    WordQuery(SampleTables, "kill", true);
    UpperKill();
  }

  /** Queries are case-insensitive: "KILL" finds "kill". */
  lemma UpperCaseQuery(isOperator: bool)
    ensures Resolve(SampleTables, ["KILL"], isOperator) == Resolve(SampleTables, ["kill"], isOperator)
  {
    NormalizeUpperKill();
    NormalizeKill();
  }

  lemma SampleAliases()
    ensures "cmodes" in SampleRegistry && SampleRegistry["cmodes"] == HelpEntry(false, CModeText, InformationHelpEntry, true)
    ensures "cmode" in SampleRegistry && SampleRegistry["cmode"] == HelpEntry(false, CModeText, InformationHelpEntry, false)
  {
  }

  lemma UpperCModes()
    ensures ToUpper("cmodes") == "CMODES"
  {
  }

  /** The alias "cmodes" answers with the text of "cmode", although neither
      index lists it (`SampleUserIndex`). */
  lemma AliasQuery(isOperator: bool)
    ensures Resolve(SampleTables, ["cmodes"], isOperator) == Framed("CMODES", CModeText)
  {
    SampleAliases();
    WordQuery(SampleTables, "cmodes", isOperator);
    UpperCModes();
  }

  lemma SampleAway()
    ensures "away" in SampleRegistry && SampleRegistry["away"] == HelpEntry(false, AwayText, CommandHelpEntry, false)
  {
  }

  lemma UpperAway()
    ensures ToUpper("away") == "AWAY"
  {
  }

  /** "away" is answered with its text under "AWAY", for users too. */
  lemma AwayQuery(isOperator: bool)
    ensures Resolve(SampleTables, ["away"], isOperator) == Framed("AWAY", AwayText)
  {
    SampleAway();
    WordQuery(SampleTables, "away", isOperator);
    UpperAway();
  }

  lemma NormalizeBlank()
    ensures Normalize([]) == "" && Normalize(["", " "]) == ""
  {
    BlankJoin();
    NormalizeBlankParams(["", " "]);
  }

  lemma BlankJoin()
    ensures Join(["", " "], ' ') == [' ', ' ']
  {
    assert ["", " "][1..] == [" "];
  }

  /** No parameters, or only blanks: the usage text under "HELPOP". */
  lemma EmptyQuery(isOperator: bool)
    ensures Resolve(SampleTables, [], isOperator) == Framed("HELPOP", HelpOpUsage)
    ensures Resolve(SampleTables, ["", " "], isOperator) == Framed("HELPOP", HelpOpUsage)
  {
    NormalizeBlank();
    EmptyQueryUsage(SampleTables, SampleTables, [], isOperator);
    EmptyQueryUsage(SampleTables, SampleTables, ["", " "], isOperator);
  }

  /** "index" from a user gets the user index text. */
  lemma UserIndexQuery()
    ensures Resolve(SampleTables, ["index"], false) == Framed("HELP", "list of all help topics for regular users")
  {
    NormalizeWord("index");
    IndexQuery(SampleTables, ["index"], false);
  }

  lemma SpacedIndex()
    ensures [' '] + "INDEX" + [' '] == " INDEX "
  {
  }

  lemma LowerIndex()
    ensures ToLower("INDEX") == "index"
  {
  }

  lemma NormalizeSpacedIndex()
    ensures Normalize([" INDEX "]) == "index"
  {
    NormalizePadded("INDEX");
    SpacedIndex();
    LowerIndex();
  }

  /** " INDEX " from an operator, once normalised, gets the operator index text. */
  lemma OperIndexQuery()
    ensures Resolve(SampleTables, [" INDEX "], true) == Framed("HELP", "list of all help topics for opers")
  {
    NormalizeSpacedIndex();
    IndexQuery(SampleTables, [" INDEX "], true);
  }
}
