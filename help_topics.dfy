/**
 * The help topic registry: the entry types of `irc/help.go`, the shape of
 * its `Help` map, the two visibility rules applied to entries, and a small
 * registry with representative entries.
 */
module HelpTopics {
  import opened Strings

  /** Which index section an entry is listed under. */
  datatype HelpEntryType = CommandHelpEntry | InformationHelpEntry | ISupportHelpEntry

  /** One topic. `oper` restricts it to server operators; `duplicate` marks an
      alias that can be looked up but is not listed in the index. */
  datatype HelpEntry = HelpEntry(oper: bool, text: string, helpType: HelpEntryType, duplicate: bool)

  /** The `Help` map, keyed by lower-case topic name. */
  type Registry = map<string, HelpEntry>

  /** The access rule of the lookup in `helpHandler`: `!oper || (oper && isOperator)`. */
  predicate Visible(e: HelpEntry, isOperator: bool) {
    !e.oper || (e.oper && isOperator)
  }

  /** The two `continue` guards of `GenerateHelpIndex` not taken. */
  predicate Listed(e: HelpEntry, forOpers: bool) {
    !(e.duplicate) && !(e.oper && !forOpers)
  }

  /** The index and the lookup apply the same access rule: an entry is listed
      exactly when it is not an alias and the caller may look it up. */
  lemma ListedIsVisibleCanonical(e: HelpEntry, forOpers: bool)
    ensures Listed(e, forOpers) <==> !e.duplicate && Visible(e, forOpers)
    ensures Visible(e, forOpers) <==> !e.oper || forOpers
  {
  }

  /** Registry keys are lower-case (so that a lower-cased query can find
      them), non-empty and contain no line break. */
  predicate WellFormed(reg: Registry) {
    forall k :: k in reg ==> WellFormedKey(k)
  }

  predicate WellFormedKey(k: string) {
    k != "" && IsLower(k) && '\n' !in k
  }

  /** Every alias has a canonical, non-alias entry with the same text. Nothing
      in the program checks this; it is a property of the data. */
  predicate AliasesHaveCanonical(reg: Registry) {
    forall k :: k in reg && reg[k].duplicate ==>
      exists c :: c in reg && !reg[c].duplicate && reg[c].text == reg[k].text
  }

  const AwayText: string :=
    "AWAY [message]\n\nIf [message] is sent, marks you away. If [message] is not sent, marks you no\nlonger away."
  const KillText: string :=
    "KILL <nickname> [reason]\n\nRemoves the given user from the network, showing them the reason if it is\nsupplied."
  /** Stand-ins for the long shared texts `cmodeHelpText`, `umodeHelpText`
      and `snomaskHelpText`. */
  const CModeText: string := "== Channel Modes =="
  const UModeText: string := "== User Modes =="
  const SnomaskText: string := "== Server Notice Masks =="
  const CaseMappingText: string := "RPL_ISUPPORT CASEMAPPING"

  /** A registry holding one representative of each kind of entry of the
      `Help` map: a plain command, an operator command, information entries
      with their aliases (one operator-only), and an ISUPPORT token. */
  const SampleRegistry: Registry := map[
    "away" := HelpEntry(false, AwayText, CommandHelpEntry, false),
    "kill" := HelpEntry(true, KillText, CommandHelpEntry, false),
    "cmode" := HelpEntry(false, CModeText, InformationHelpEntry, false),
    "cmodes" := HelpEntry(false, CModeText, InformationHelpEntry, true),
    "umode" := HelpEntry(false, UModeText, InformationHelpEntry, false),
    "umodes" := HelpEntry(false, UModeText, InformationHelpEntry, true),
    "snomask" := HelpEntry(true, SnomaskText, InformationHelpEntry, true),
    "snomasks" := HelpEntry(true, SnomaskText, InformationHelpEntry, false),
    "casemapping" := HelpEntry(false, CaseMappingText, ISupportHelpEntry, false)
  ]

  /** The sample registry meets the data invariants of the real one. */
  lemma SampleRegistryWellFormed()
    ensures WellFormed(SampleRegistry) && AliasesHaveCanonical(SampleRegistry)
  {
    SampleKeysWellFormed();
    SampleAliasesHaveCanonical();
  }

  lemma SampleKeysWellFormed()
    ensures WellFormed(SampleRegistry)
  {
    SampleKeysShape();
    forall k | k in SampleRegistry ensures WellFormedKey(k) {
      assert k in ["away", "kill", "cmode", "cmodes", "umode", "umodes", "snomask", "snomasks", "casemapping"];
    }
  }

  lemma SampleKeysShape()
    ensures WellFormedKey("away") && WellFormedKey("kill") && WellFormedKey("cmode")
    ensures WellFormedKey("cmodes") && WellFormedKey("umode") && WellFormedKey("umodes")
    ensures WellFormedKey("snomask") && WellFormedKey("snomasks") && WellFormedKey("casemapping")
  {
  }

  lemma SampleAliasesHaveCanonical()
    ensures AliasesHaveCanonical(SampleRegistry)
  {
    var reg := SampleRegistry;
    assert reg["cmodes"].text == reg["cmode"].text;
    assert reg["umodes"].text == reg["umode"].text;
    assert reg["snomask"].text == reg["snomasks"].text;
  }
}
