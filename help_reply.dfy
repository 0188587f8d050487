/**
 * Answering a HELP/HELPOP query: `Client.sendHelp`, which frames a text as
 * RPL_HELPSTART / RPL_HELPTXT / RPL_ENDOFHELP replies, and `helpHandler`,
 * which normalises the query and chooses what to frame.
 */
module HelpReply {
  import opened Strings
  import opened HelpTopics
  import opened HelpIndex

  /** The four reply numerics the help subsystem sends. */
  datatype Numeric = RplHelpStart | RplHelpTxt | RplEndOfHelp | ErrHelpNotFound

  /** One message handed to `Client.Send`: its source, numeric and parameters. */
  datatype Message = Message(source: string, command: Numeric, params: seq<string>)

  const EndOfHelpText: string := "End of /HELPOP"
  const HelpNotFoundText: string := "Help not found"
  const HelpOpUsage: string :=
    "HELPOP <argument>\n\nGet an explanation of <argument>, or \"index\" for a list of help topics."

  /** The package-level `Help` map and the two index texts. */
  datatype HelpTables = HelpTables(topics: Registry, index: string, indexOpers: string)

  /** The index texts are the ones `GenerateHelpIndex` produces for the registry. */
  ghost predicate Generated(tables: HelpTables) {
    tables.index == IndexText(tables.topics, false) && tables.indexOpers == IndexText(tables.topics, true)
  }

  /** What `sendHelp(name, text)` sends: one message per line of `text`, the
      first RPL_HELPSTART and the others RPL_HELPTXT, then RPL_ENDOFHELP;
      each carries the words of `name` followed by its payload. */
  function HelpReplies(source: string, name: string, text: string): seq<Message> {
    var args := Split(name, ' ');
    var lines := Split(text, '\n');
    seq(|lines|, i requires 0 <= i < |lines| =>
      Message(source, if i == 0 then RplHelpStart else RplHelpTxt, args + [lines[i]]))
    + [Message(source, RplEndOfHelp, args + [EndOfHelpText])]
  }

  /** Number of messages with the given numeric. */
  function CountCommand(msgs: seq<Message>, c: Numeric): nat {
    if msgs == [] then 0 else (if msgs[0].command == c then 1 else 0) + CountCommand(msgs[1..], c)
  }

  lemma {:induction false} CountCommandAppend(a: seq<Message>, b: seq<Message>, c: Numeric)
    ensures CountCommand(a + b, c) == CountCommand(a, c) + CountCommand(b, c)
  {
    if a == [] {
      assert a + b == b;
    } else {
      assert (a + b)[0] == a[0];
      assert (a + b)[1..] == a[1..] + b;
      CountCommandAppend(a[1..], b, c);
    }
  }

  lemma {:induction false} CountCommandUniform(msgs: seq<Message>, d: Numeric, c: Numeric)
    requires forall i :: 0 <= i < |msgs| ==> msgs[i].command == d
    ensures CountCommand(msgs, c) == if c == d then |msgs| else 0
  {
    if msgs != [] { CountCommandUniform(msgs[1..], d, c); }
  }

  lemma CountCommandSingle(m: Message, c: Numeric)
    ensures CountCommand([m], c) == if m.command == c then 1 else 0
  {
    assert [m][1..] == [];
  }

  /** A text of k lines (k is one more than its number of line breaks) is
      sent as k + 1 messages from `source`: the first is RPL_HELPSTART, the
      next k - 1 are RPL_HELPTXT, the last is RPL_ENDOFHELP; message i < k
      carries the words of `name` and line i, the last carries the words of
      `name` and "End of /HELPOP". */
  lemma HelpRepliesShape(source: string, name: string, text: string)
    ensures var r := HelpReplies(source, name, text);
      var k := Count(text, '\n') + 1;
      && |r| == k + 1
      && r[0].command == RplHelpStart
      && (forall i :: 0 < i < k ==> r[i].command == RplHelpTxt)
      && r[k] == Message(source, RplEndOfHelp, Split(name, ' ') + [EndOfHelpText])
      && (forall i :: 0 <= i < k ==> r[i].params == Split(name, ' ') + [Split(text, '\n')[i]])
      && (forall i :: 0 <= i < |r| ==> r[i].source == source)
  {
  }

  /** Exactly one RPL_HELPSTART and one RPL_ENDOFHELP, k - 1 RPL_HELPTXT and no
      error reply. */
  lemma HelpRepliesCounts(source: string, name: string, text: string)
    ensures var r := HelpReplies(source, name, text);
      var k := Count(text, '\n') + 1;
      && CountCommand(r, RplHelpStart) == 1
      && CountCommand(r, RplHelpTxt) == k - 1
      && CountCommand(r, RplEndOfHelp) == 1
      && CountCommand(r, ErrHelpNotFound) == 0
  {
    var r := HelpReplies(source, name, text);
    var k := Count(text, '\n') + 1;
    HelpRepliesShape(source, name, text);
    var first, middle, last := [r[0]], r[1..k], [r[k]];
    assert r == first + middle + last;
    forall c: Numeric ensures CountCommand(r, c) == CountCommand(first, c) + CountCommand(middle, c) + CountCommand(last, c) {
      CountCommandAppend(first + middle, last, c);
      CountCommandAppend(first, middle, c);
    }
    forall c: Numeric ensures CountCommand(middle, c) == if c == RplHelpTxt then k - 1 else 0 {
      CountCommandUniform(middle, RplHelpTxt, c);
    }
    forall c: Numeric ensures CountCommand(first, c) == (if c == RplHelpStart then 1 else 0)
      && CountCommand(last, c) == (if c == RplEndOfHelp then 1 else 0) {
      CountCommandSingle(r[0], c);
      CountCommandSingle(r[k], c);
    }
  }

  /** The last parameter of a message: the line it carries. */
  function Payload(m: Message): string
    requires |m.params| > 0
  {
    m.params[|m.params| - 1]
  }

  /** What a client reads back from a framed reply: the label, from the
      leading parameters of the first message, and the text, from the
      payloads of all messages but the last, one per line. */
  function ReadLabel(msgs: seq<Message>): string
    requires |msgs| > 0 && |msgs[0].params| > 0
  {
    Join(msgs[0].params[..|msgs[0].params| - 1], ' ')
  }

  function ReadText(msgs: seq<Message>): string
    requires |msgs| > 0 && forall i :: 0 <= i < |msgs| ==> |msgs[i].params| > 0
  {
    Join(seq(|msgs| - 1, i requires 0 <= i < |msgs| - 1 => Payload(msgs[i])), '\n')
  }

  /** Framing loses nothing: the label and the text can be read back from
      the messages. */
  lemma FramingRoundTrip(source: string, name: string, text: string)
    ensures var r := HelpReplies(source, name, text);
      |r| > 0 && (forall i :: 0 <= i < |r| ==> |r[i].params| > 0)
      && ReadLabel(r) == name && ReadText(r) == text
  {
    var r := HelpReplies(source, name, text);
    var lines := Split(text, '\n');
    var args := Split(name, ' ');
    assert r[0].params[..|r[0].params| - 1] == args;
    JoinSplit(name, ' ');
    assert seq(|r| - 1, i requires 0 <= i < |r| - 1 => Payload(r[i])) == lines;
    JoinSplit(text, '\n');
  }

  /** A connected client: its server's name, whether it has the operator
      flag, and the messages sent to it so far. */
  class Client {
    const serverName: string
    var isOperator: bool
    var sent: seq<Message>

    constructor (serverName: string, isOperator: bool)
      ensures this.serverName == serverName && this.isOperator == isOperator && sent == []
    {
      this.serverName := serverName;
      this.isOperator := isOperator;
      sent := [];
    }

    /** `Client.Send`: the message joins the outgoing sequence. */
    method Send(source: string, command: Numeric, params: seq<string>)
      modifies this`sent
      ensures sent == old(sent) + [Message(source, command, params)]
    {
      sent := sent + [Message(source, command, params)];
    }

    /** `Client.sendHelp`. */
    method SendHelp(name: string, text: string)
      modifies this`sent
      ensures sent == old(sent) + HelpReplies(serverName, name, text)
    {
      var splitName := Split(name, ' ');
      var textLines := Split(text, '\n');
      ghost var expected := HelpReplies(serverName, name, text);
      var i := 0;
      while i < |textLines|
        invariant 0 <= i <= |textLines|
        invariant sent == old(sent) + expected[..i]
      {
        var line := textLines[i];
        var args := splitName + [line];
        if i == 0 {
          Send(serverName, RplHelpStart, args);
        } else {
          Send(serverName, RplHelpTxt, args);
        }
        assert expected[..i + 1] == expected[..i] + [expected[i]];
        i := i + 1;
      }
      var args := splitName + [EndOfHelpText];
      Send(serverName, RplEndOfHelp, args);
      assert expected == expected[..i] + [expected[i]];
    }
  }

  /** The query as `helpHandler` normalises it: the parameters joined with
      spaces, trimmed and lower-cased. */
  function Normalize(params: seq<string>): string {
    ToLower(TrimSpace(Join(params, ' ')))
  }

  /** The normalised query is lower-case and has no white space at either end. */
  lemma NormalizeShape(params: seq<string>)
    ensures var q := Normalize(params);
      IsLower(q) && (q != [] ==> !IsSpace(q[0]) && !IsSpace(q[|q| - 1]))
  {
    var t := TrimSpace(Join(params, ' '));
    var lo, hi := TrimSpaceSlice(Join(params, ' '));
    CaseRoundTrip(t);
    LowerKeepsEnds(t);
  }

  /** Lower-casing a string that neither starts nor ends with white space
      keeps it so. */
  lemma LowerKeepsEnds(t: string)
    requires t != [] ==> !IsSpace(t[0]) && !IsSpace(t[|t| - 1])
    ensures var q := ToLower(t); q != [] ==> !IsSpace(q[0]) && !IsSpace(q[|q| - 1])
  {
    if t != [] {
      assert !IsSpace(LowerChar(t[0])) && !IsSpace(LowerChar(t[|t| - 1]));
    }
  }

  /** A query given as one lower-case word without surrounding white space
      is looked up as that word. */
  lemma NormalizeWord(word: string)
    requires IsLower(word) && (word != [] ==> !IsSpace(word[0]) && !IsSpace(word[|word| - 1]))
    ensures Normalize([word]) == word
  {
    TrimSpaceTrimmed(word);
    CaseRoundTrip(word);
  }

  /** A single parameter without white space at either end is looked up
      lower-cased. */
  lemma NormalizeSingle(w: string)
    requires w != [] ==> !IsSpace(w[0]) && !IsSpace(w[|w| - 1])
    ensures Normalize([w]) == ToLower(w)
  {
    assert Join([w], ' ') == w;
    TrimSpaceTrimmed(w);
  }

  /** Parameters that join to nothing but white space give the empty query. */
  lemma NormalizeBlankParams(params: seq<string>)
    requires forall i :: 0 <= i < |Join(params, ' ')| ==> IsSpace(Join(params, ' ')[i])
    ensures Normalize(params) == ""
  {
    var lo, hi := TrimSpaceSlice(Join(params, ' '));
  }

  /** One space on each side of a single-word query is trimmed away. */
  lemma NormalizePadded(w: string)
    requires w != [] && !IsSpace(w[0]) && !IsSpace(w[|w| - 1])
    ensures Normalize([[' '] + w + [' ']]) == ToLower(w)
  {
    var p := [' '] + w + [' '];
    assert Join([p], ' ') == p;
    TrimPadded(w);
  }

  /** What `helpHandler` decides to do. */
  datatype Outcome = Framed(topic: string, text: string) | NotFound

  function Resolve(tables: HelpTables, params: seq<string>, isOperator: bool): Outcome {
    var argument := Normalize(params);
    if |argument| < 1 then Framed("HELPOP", HelpOpUsage)
    else if argument == "index" then
      Framed("HELP", if isOperator then tables.indexOpers else tables.index)
    else if argument in tables.topics && Visible(tables.topics[argument], isOperator) then
      Framed(ToUpper(argument), tables.topics[argument].text)
    else NotFound
  }

  /** The messages `helpHandler` sends for an outcome. */
  function Reply(serverName: string, clientServerName: string, params: seq<string>, outcome: Outcome): seq<Message> {
    match outcome
    case Framed(topic, text) => HelpReplies(clientServerName, topic, text)
    case NotFound => [Message(serverName, ErrHelpNotFound, params + [HelpNotFoundText])]
  }

  /** `helpHandler`: sends the reply for the query and never asks for the
      connection to be closed. */
  method HelpHandler(serverName: string, tables: HelpTables, client: Client, params: seq<string>) returns (quit: bool)
    modifies client`sent
    ensures !quit
    ensures client.sent == old(client.sent)
      + Reply(serverName, client.serverName, params, Resolve(tables, params, client.isOperator))
  {
    var argument := ToLower(TrimSpace(Join(params, ' ')));
    ghost var outcome := Resolve(tables, params, client.isOperator);
    if |argument| < 1 {
      assert outcome == Framed("HELPOP", HelpOpUsage);
      client.SendHelp("HELPOP", HelpOpUsage);
      return false;
    }
    if argument == "index" {
      if client.isOperator {
        assert outcome == Framed("HELP", tables.indexOpers);
        client.SendHelp("HELP", tables.indexOpers);
      } else {
        assert outcome == Framed("HELP", tables.index);
        client.SendHelp("HELP", tables.index);
      }
      return false;
    }
    var found := argument in tables.topics;
    if found && (!tables.topics[argument].oper || (tables.topics[argument].oper && client.isOperator)) {
      assert outcome == Framed(ToUpper(argument), tables.topics[argument].text);
      client.SendHelp(ToUpper(argument), tables.topics[argument].text);
    } else {
      assert outcome == NotFound;
      var args := params + [HelpNotFoundText];
      client.Send(serverName, ErrHelpNotFound, args);
    }
    return false;
  }

  /** An empty query gets the usage text under "HELPOP", whatever the
      registry and index texts are. */
  lemma EmptyQueryUsage(tables: HelpTables, other: HelpTables, params: seq<string>, isOperator: bool)
    requires Normalize(params) == ""
    ensures Resolve(tables, params, isOperator) == Framed("HELPOP", HelpOpUsage)
    ensures Resolve(tables, params, isOperator) == Resolve(other, params, isOperator)
  {
  }

  /** The query "index" gets the operator index for an operator and the user
      index otherwise, under "HELP", whatever the registry holds. */
  lemma IndexQuery(tables: HelpTables, params: seq<string>, isOperator: bool)
    requires Normalize(params) == "index"
    ensures Resolve(tables, params, isOperator) ==
      Framed("HELP", if isOperator then tables.indexOpers else tables.index)
    ensures Resolve(tables, params, isOperator) ==
      Resolve(tables.(topics := map[]), params, isOperator)
  {
  }

  /** Any other query is answered with the entry's text under the upper-cased
      query exactly when the entry exists and the caller may see it;
      otherwise the single outcome is "not found". */
  lemma TopicQuery(tables: HelpTables, params: seq<string>, isOperator: bool)
    requires Normalize(params) != "" && Normalize(params) != "index"
    ensures var q := Normalize(params);
      ((Resolve(tables, params, isOperator) == NotFound)
        <==> !(q in tables.topics && (!tables.topics[q].oper || isOperator)))
      && (q in tables.topics && (!tables.topics[q].oper || isOperator) ==>
          Resolve(tables, params, isOperator) == Framed(ToUpper(q), tables.topics[q].text))
  {
  }

  /** Not found reveals nothing: a non-operator gets the same answer for an
      operator-only topic as for a topic that does not exist at all. */
  lemma OperTopicIndistinguishable(tables: HelpTables, params: seq<string>)
    requires Normalize(params) != "" && Normalize(params) != "index"
    requires Normalize(params) in tables.topics && tables.topics[Normalize(params)].oper
    ensures Resolve(tables, params, false) == NotFound
    ensures Resolve(tables, params, false) ==
      Resolve(tables.(topics := tables.topics - {Normalize(params)}), params, false)
  {
    NormalizeShape(params);
  }

  /** Outside the index, being an operator only adds answers: whatever a
      user is shown, an operator is shown too. */
  lemma OperatorSeesEverything(tables: HelpTables, params: seq<string>)
    requires Normalize(params) != "index"
    requires Resolve(tables, params, false) != NotFound
    ensures Resolve(tables, params, true) == Resolve(tables, params, false)
  {
  }

  /** The label of a framed topic, lower-cased again, is the normalised
      query, which is the registry key that was found. */
  lemma TopicLabelNamesTopic(tables: HelpTables, params: seq<string>, isOperator: bool)
    requires Normalize(params) != "" && Normalize(params) != "index"
    requires Resolve(tables, params, isOperator).Framed?
    ensures ToLower(Resolve(tables, params, isOperator).topic) == Normalize(params)
    ensures ToLower(Resolve(tables, params, isOperator).topic) in tables.topics
  {
    NormalizeShape(params);
    CaseRoundTrip(Normalize(params));
  }

  /** An indented line is among the lines after the title of the index
      layout exactly when it is in one of the three sections. */
  lemma IndexLayoutMembership(c: seq<string>, s: seq<string>, n: seq<string>, line: string)
    requires |line| >= 3 && line[..3] == "   "
    ensures var lines := ["= Help Topics =", "", "Commands:"] + c + ["", "RPL_ISUPPORT Tokens:"] + s + ["", "Information:"] + n;
      (exists i :: 0 < i < |lines| && lines[i] == line) <==> (line in c || line in s || line in n)
  {
    var lines := ["= Help Topics =", "", "Commands:"] + c + ["", "RPL_ISUPPORT Tokens:"] + s + ["", "Information:"] + n;
    var tail := ["", "Commands:"] + c + ["", "RPL_ISUPPORT Tokens:"] + s + ["", "Information:"] + n;
    assert lines == ["= Help Topics ="] + tail;
    assert line[0] == ' ';
    assert line != "" && line != "Commands:" && line != "RPL_ISUPPORT Tokens:" && line != "Information:";
    assert line in tail <==> (line in c || line in s || line in n);
    if exists i :: 0 < i < |lines| && lines[i] == line {
      var i :| 0 < i < |lines| && lines[i] == line;
      assert tail[i - 1] == line;
    }
    if line in tail {
      var j :| 0 <= j < |tail| && tail[j] == line;
      assert lines[j + 1] == line;
    }
  }

  /** A registry entry's line is a line of the index text, other than its
      title line, exactly when the entry is listed. */
  lemma IndexLineListed(help: Registry, forOpers: bool, name: string)
    requires WellFormed(help) && name in help
    ensures var lines := Split(IndexText(help, forOpers), '\n');
      (exists i :: 0 < i < |lines| && lines[i] == IndentLine(name)) <==> Listed(help[name], forOpers)
  {
    var line := IndentLine(name);
    var c := Section(help, forOpers, CommandHelpEntry);
    var s := Section(help, forOpers, ISupportHelpEntry);
    var n := Section(help, forOpers, InformationHelpEntry);
    IndexTextLines(help, forOpers);
    assert line[..3] == "   ";
    IndexLayoutMembership(SectionAsLines(c), SectionAsLines(s), SectionAsLines(n), line);
    assert line != "";
    assert line in SectionAsLines(c) <==> line in c;
    assert line in SectionAsLines(s) <==> line in s;
    assert line in SectionAsLines(n) <==> line in n;
    SectionMembership(help, forOpers, CommandHelpEntry, name);
    SectionMembership(help, forOpers, ISupportHelpEntry, name);
    SectionMembership(help, forOpers, InformationHelpEntry, name);
  }

  /** Under a one-word label, message i of a reply, for 0 < i < k, is the
      RPL_HELPTXT carrying the label and line i. */
  lemma HelpTextAt(source: string, word: string, text: string, i: int)
    requires ' ' !in word
    requires 0 < i < |Split(text, '\n')|
    ensures var r := HelpReplies(source, word, text);
      |r| == |Split(text, '\n')| + 1
      && r[i] == Message(source, RplHelpTxt, [word, Split(text, '\n')[i]])
  {
    SplitNoSeparator(word, ' ');
    var r := HelpReplies(source, word, text);
    assert r[i] == Message(source, RplHelpTxt, Split(word, ' ') + [Split(text, '\n')[i]]);
  }

  /** The RPL_HELPTXT messages of a reply under a one-word label carry the
      lines after the first. */
  lemma HelpTextMessages(source: string, word: string, text: string, line: string)
    requires ' ' !in word
    ensures var r := HelpReplies(source, word, text);
      var lines := Split(text, '\n');
      (exists i :: 0 < i < |r| - 1 && r[i] == Message(source, RplHelpTxt, [word, line]))
      <==> (exists i :: 0 < i < |lines| && lines[i] == line)
  {
    var r := HelpReplies(source, word, text);
    var lines := Split(text, '\n');
    assert |r| == |lines| + 1;
    if i :| 0 < i < |r| - 1 && r[i] == Message(source, RplHelpTxt, [word, line]) {
      HelpTextAt(source, word, text, i);
      assert [word, lines[i]] == r[i].params == [word, line];
      assert lines[i] == line;
    }
    if i :| 0 < i < |lines| && lines[i] == line {
      HelpTextAt(source, word, text, i);
      assert 0 < i < |r| - 1 && r[i] == Message(source, RplHelpTxt, [word, line]);
    }
  }

  /** With index texts made by `GenerateHelpIndex`, "index" is answered
      with the index generated for the caller's operator status. */
  lemma GeneratedIndexQuery(tables: HelpTables, params: seq<string>, isOperator: bool)
    requires Generated(tables)
    requires Normalize(params) == "index"
    ensures Resolve(tables, params, isOperator) == Framed("HELP", IndexText(tables.topics, isOperator))
  {
    IndexQuery(tables, params, isOperator);
  }

  /** End to end, with index texts made by `GenerateHelpIndex`: the reply to
      "index" carries the line of a registry entry as an RPL_HELPTXT message
      exactly when the entry is listed for this caller (not an alias, and not
      operator-only unless the caller is an operator). */
  lemma IndexReplyShowsListed(serverName: string, clientServerName: string, tables: HelpTables,
                              params: seq<string>, isOperator: bool, name: string)
    requires Generated(tables) && WellFormed(tables.topics)
    requires Normalize(params) == "index"
    requires name in tables.topics
    ensures var r := Reply(serverName, clientServerName, params, Resolve(tables, params, isOperator));
      (exists i :: 0 < i < |r| - 1 && r[i] == Message(clientServerName, RplHelpTxt, ["HELP", IndentLine(name)]))
      <==> Listed(tables.topics[name], isOperator)
  {
    var text := IndexText(tables.topics, isOperator);
    GeneratedIndexQuery(tables, params, isOperator);
    var r := Reply(serverName, clientServerName, params, Resolve(tables, params, isOperator));
    assert r == HelpReplies(clientServerName, "HELP", text);
    HelpTextMessages(clientServerName, "HELP", text, IndentLine(name));
    IndexLineListed(tables.topics, isOperator, name);
  }
}
