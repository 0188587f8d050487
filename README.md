# Help subsystem of the oragono IRC server

This project models the help subsystem of the oragono IRC server (`irc/help.go`) in Dafny. It covers three operations:

- `GenerateHelpIndex` builds the topic index.
- `Client.sendHelp` frames a text as a sequence of `RPL_HELPSTART` / `RPL_HELPTXT` / `RPL_ENDOFHELP` replies.
- `helpHandler` answers a `HELP`/`HELPOP` command.

The model is split into six modules:

- `Strings` (`strings.dfy`): Go's `strings.Split` and `strings.Join` with a one-character separator, `strings.TrimSpace` (with Go's `unicode.IsSpace` set), and `strings.ToLower` / `strings.ToUpper`, restricted to ASCII letters.
- `StringOrder` (`string_order.dfy`): Go's string order and `sort.Strings`. `sort.Strings` is modelled as an insertion sort proved to yield an ascending permutation. `SortSet` is the reference definition: the elements of a set in ascending order.
- `HelpTopics` (`help_topics.dfy`):
  - the entry types and the `Help` registry;
  - the access rule of the lookup (`Visible`) and the two filters of the index (`Listed`);
  - a sample registry with one entry of each kind.
- `HelpIndex` (`help_index.dfy`): `GenerateHelpIndex`. The method is written as in the source: a loop over the registry in an unspecified order, with the two `continue` guards, then three buckets, three sorts and the template. It is proved equal to `IndexText`, a definition that depends only on the registry and the operator flag.
- `HelpReply` (`help_reply.dfy`):
  - `Client`, a class with the messages sent so far;
  - `SendHelp`, which has the loop of `sendHelp`;
  - `HelpHandler`. It is proved to send exactly `Reply(..., Resolve(...))`, two functions that state the decision and its framing.
- `HelpScenarios` (`help_scenarios.dfy`): concrete queries against the sample registry.

## Model

| member | source | states |
|---|---|---|
| Strings.JoinSplit | irc/help.go:579-580 | Joining the pieces of `Split(s, c)` with `c` gives back `s`, so splitting the label on spaces and the text on line breaks loses nothing |
| Strings.SplitJoin | irc/help.go:572 | Splitting a join of pieces that have no separator gives back the pieces; this is how each joined section reads back as its own lines |
| Strings.SplitAppend | irc/help.go:580 | Splitting `x + [c] + y` gives the pieces of `x` followed by the pieces of `y` |
| Strings.TrimSpaceSlice | irc/help.go:598 | `TrimSpace(s)` is a slice `s[lo..hi]`. Everything outside the slice is white space. The result neither starts nor ends with white space, and it is empty exactly when `s` is all white space |
| Strings.TrimPadded | irc/help.go:598 | One space on each side of a word is trimmed away |
| Strings.CaseRoundTrip | irc/help.go:598 | `ToLower` yields a lower-case string and leaves a lower-case string as it is. Lower-casing `ToUpper` of a lower-case string gives it back |
| StringOrder.LeTotalOrder | irc/help.go:567-569 | The order `sort.Strings` uses is reflexive, total, antisymmetric and transitive |
| StringOrder.SortStrings | irc/help.go:567-569 | `sort.Strings` leaves an ascending permutation of its input: sorted, with the same multiset of elements |
| StringOrder.SortSet | irc/help.go:567-569 | Reference order of a set: strictly ascending, with exactly the set's elements, each once |
| StringOrder.SortedUnique | irc/help.go:567-569 | Two ascending sequences with the same multiset are equal, so a sorted section does not depend on the order in which the map was visited |
| StringOrder.SortStringsOfSet | irc/help.go:545-569 | Sorting any sequence that holds the elements of a set, each once, gives `SortSet` of that set |
| HelpTopics.ListedIsVisibleCanonical | irc/help.go:548-553 | An entry is listed in an index exactly when it is not an alias and the lookup's access check would let that caller see it. The index and the lookup cannot disagree |
| HelpTopics.SampleRegistryWellFormed | irc/help.go:94-522 | The sample registry has what the real `Help` map has: non-empty lower-case keys without line breaks, and a canonical entry with the same text for every alias |
| HelpIndex.IndentLine | irc/help.go:555 | An index line is three spaces followed by the name, which can be read back from it |
| HelpIndex.IndentLineInjective | irc/help.go:555 | Different names give different index lines |
| HelpIndex.GenerateHelpIndex | irc/help.go:531-575 | For each key of the map, visited in any order, the loop skips aliases (548-550) and, for the user index, operator-only entries (551-553), and puts the line in the bucket of its type (557-563). Then it sorts each bucket (567-569) and fills the template (572). The result always equals `IndexText(help, forOpers)` |
| HelpIndex.SectionMembership | irc/help.go:546-563 | The line of a name is in section `t` exactly when the name is a registry entry of type `t` that is neither an alias nor operator-only in the user index |
| HelpIndex.SectionLines | irc/help.go:555-569 | Each section is strictly ascending. Every line of it is the indented name of a listed entry of that section's type |
| HelpIndex.ListedExactlyOnce | irc/help.go:546-572 | A listed entry's line occurs exactly once in the three sections together, in the section of its own type. An entry that is not listed occurs in none |
| HelpIndex.DuplicatesNeverListed | irc/help.go:548-550 | An alias appears in no section of either index |
| HelpIndex.OperatorEntriesOnlyInOperIndex | irc/help.go:551-553 | An operator-only entry appears in no section of the user index. Every non-alias entry appears in the operator index, in the section of its type |
| HelpIndex.UserIndexWithinOperIndex | irc/help.go:551-553 | Every line of a user-index section is in the same section of the operator index. The inclusion is strict when an operator-only non-alias entry of that type exists |
| HelpIndex.SplitSection | irc/help.go:572 | A joined section is read back line by line as its lines, or as one empty line when it is empty |
| HelpIndex.TemplateLines | irc/help.go:532-541 | The template read line by line: the title, a blank line and "Commands:", the first section, a blank line and "RPL_ISUPPORT Tokens:", the second, a blank line and "Information:", the third |
| HelpIndex.IndexTextLines | irc/help.go:532-572 | The whole index read line by line: its fixed header lines with the three sorted sections in between |
| HelpIndex.SampleUserIndex | irc/help.go:208-214 | In the sample registry the user index hides "kill" and the operator index lists it. "away" is listed for users |
| HelpIndex.SampleAliasesUnlisted | irc/help.go:475-494 | The sample aliases "cmodes", "umodes" and "snomask" are in no section of either index |
| HelpReply.HelpRepliesShape | irc/help.go:578-594 | A text of k lines gives k + 1 messages from the server. The first is RPL_HELPSTART and the next k - 1 are RPL_HELPTXT. Each of these carries the words of the label followed by its line. The last is RPL_ENDOFHELP, with the label's words and "End of /HELPOP" |
| HelpReply.HelpRepliesCounts | irc/help.go:582-593 | A framed reply holds exactly one RPL_HELPSTART, k - 1 RPL_HELPTXT, exactly one RPL_ENDOFHELP and no ERR_HELPNOTFOUND |
| HelpReply.FramingRoundTrip | irc/help.go:578-594 | The label can be read back from the first message's leading parameters. The text can be read back by joining the payloads of all messages but the last with line breaks |
| HelpReply.HelpTextAt | irc/help.go:582-589 | Under a one-word label, message i of the reply, for 0 < i < k, is the RPL_HELPTXT carrying the label and line i of the text |
| HelpReply.HelpTextMessages | irc/help.go:582-589 | Under a one-word label, an RPL_HELPTXT message carries a line exactly when that line is one of the text's lines after the first |
| HelpReply.Client.Send | irc/help.go:586-593 | Sending a message appends exactly that message to what the client was sent, and changes nothing else |
| HelpReply.Client.SendHelp | irc/help.go:578-594 | The loop sends RPL_HELPSTART for line 0 and RPL_HELPTXT for each later line, then the end message. It appends exactly `HelpReplies(serverName, name, text)` to what the client was sent |
| HelpReply.NormalizeShape | irc/help.go:598 | The normalised query is lower-case and has no white space at either end |
| HelpReply.NormalizeWord | irc/help.go:598 | A single lower-case word without surrounding white space is looked up as itself |
| HelpReply.NormalizeSingle | irc/help.go:598 | A single parameter without white space at either end is looked up as itself, lower-cased |
| HelpReply.NormalizeBlankParams | irc/help.go:598-600 | Parameters that join to nothing but white space give the empty query |
| HelpReply.NormalizePadded | irc/help.go:598 | A single word with one space on each side is looked up as the word, lower-cased |
| HelpReply.HelpHandler | irc/help.go:597-628 | The handler always returns false. It appends to the client's messages exactly the reply `Resolve` chooses: usage, index, the topic, or one ERR_HELPNOTFOUND from the server echoing the parameters plus "Help not found" |
| HelpReply.EmptyQueryUsage | irc/help.go:600-605 | An empty or blank query gets the usage text under "HELPOP", whatever the registry and the index texts are |
| HelpReply.IndexQuery | irc/help.go:608-615 | The query "index" gets the operator index for an operator and the user index otherwise, under "HELP", whatever the registry holds |
| HelpReply.TopicQuery | irc/help.go:617-627 | Any other query is not found exactly when the key is absent, or is operator-only and the caller is not an operator. Otherwise the answer is the entry's text under the upper-cased query |
| HelpReply.OperTopicIndistinguishable | irc/help.go:619 | For a non-operator, an operator-only topic gets the same answer as a topic removed from the registry |
| HelpReply.OperatorSeesEverything | irc/help.go:619 | Outside "index", an operator is shown whatever a user is shown, identically |
| HelpReply.TopicLabelNamesTopic | irc/help.go:617-620 | The label of a framed topic, lower-cased again, is the normalised query, and that query is a registry key |
| HelpReply.IndexLayoutMembership | irc/help.go:532-541 | An indented line is among the lines after the index title exactly when it is in one of the three sections |
| HelpReply.IndexLineListed | irc/help.go:546-572 | An entry's line is a line of the index text, other than the title, exactly when the entry is listed |
| HelpReply.GeneratedIndexQuery | irc/help.go:608-615 | With the index texts made by `GenerateHelpIndex`, "index" is answered with the index generated for the caller's operator status |
| HelpReply.IndexReplyShowsListed | irc/help.go:531-615 | End to end, with generated index texts: the reply to "index" has an RPL_HELPTXT message with an entry's line exactly when the entry is listed for that caller |
| HelpScenarios.WordQuery | irc/help.go:617-620 | For any tables, a one-word lower-case query for an entry the caller may see is answered with the entry's text under the upper-cased word |
| HelpScenarios.HiddenWordQuery | irc/help.go:617-627 | For any tables, a one-word lower-case query for an entry the caller may not see is not found |
| HelpScenarios.KillHiddenFromUsers | irc/help.go:208-214 | A user asking for "kill" gets the not-found outcome |
| HelpScenarios.KillNotFoundReply | irc/help.go:622-624 | That outcome is sent as one ERR_HELPNOTFOUND from the server carrying "kill" and "Help not found" |
| HelpScenarios.KillShownToOperators | irc/help.go:208-214 | An operator asking for "kill" gets its text under "KILL" |
| HelpScenarios.UpperCaseQuery | irc/help.go:598 | "KILL" gets the same answer as "kill", for users and operators |
| HelpScenarios.AliasQuery | irc/help.go:471-479 | The alias "cmodes" is answered under "CMODES" with the channel-mode text it shares with "cmode", for users too |
| HelpScenarios.AwayQuery | irc/help.go:114-119 | "away" is answered with its text under "AWAY", for users and operators |
| HelpScenarios.EmptyQuery | irc/help.go:600-605 | No parameters, or only blank ones, get the usage text under "HELPOP" |
| HelpScenarios.UserIndexQuery | irc/help.go:612 | "index" from a user gets the user index text |
| HelpScenarios.OperIndexQuery | irc/help.go:598-610 | " INDEX " from an operator gets the operator index text |

## Left out

- Help texts: the model keeps the texts of `away` and `kill` exactly. The long shared texts `cmodeHelpText`, `umodeHelpText` and `snomaskHelpText`, and the text of `casemapping`, are replaced by short stand-ins. The other entries of the `Help` map are not listed one by one: the sample registry holds one entry of each kind, and every property is proved for any registry.
- Global state: the package variables `Help`, `HelpIndex` and `HelpIndexOpers` are passed in as `HelpTables`. Concurrent access to them is not modelled.
- Operator check: `client.flags[Operator]` is the client field `isOperator`. The server name is a parameter of `HelpHandler`.
- Assigning the index texts: the index texts are whatever `HelpTables` holds. In `irc/help.go` they are fixed placeholder strings, and `GenerateHelpIndex` is called from code that is not part of this model. `Generated` states the relation for the lemmas that assume it.
- Numerics: the replies are named by a datatype. Their numeric values are defined in a file that is not part of this model.
- Wire formatting: the model records what is handed to `Client.Send`: source, numeric and parameters. Message tags, which are always `nil` here, are left out. So is the `ircmsg` encoding. `msg.Params` is the sequence `params`.
- Case mapping: `ToLower` and `ToUpper` map only ASCII letters. Go's Unicode case mapping of other letters is not modelled.
- Byte length: `len(argument) < 1` is modelled as an empty string, which is the same test on characters as on bytes.
- In-place sorting: `sort.Strings` sorts its slice in place; the model reassigns the sequence variable with the sorted result.
- Entry type values: `HelpEntryType` is an `int` in Go. The if-chain in `GenerateHelpIndex` would drop an entry with a value outside 0-2. The datatype here has exactly the three named values, so that case cannot arise.
- Slice aliasing: `append` on `splitName` and on `msg.Params` could share Go backing arrays. The model gives each message its own parameter sequence, which is what the program observes.
- Formatting: `fmt.Sprintf` with `%s` is modelled as concatenation.
- Long texts: no line-by-line scenario is proved for the usage text of the empty query or for the `away` text. Only their framing under the right label is proved.
- Usage text: it has three lines, the middle one blank, as irc/help.go:601-603 writes it.
- Sort key: `GenerateHelpIndex` sorts the indented lines rather than the names. Every line starts with the same three spaces, so the order is the order of the names.
