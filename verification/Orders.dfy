/** Numbered commands as text: who may read what into a COMMAND or a FEEDBACK line. */
module Orders {
  import opened Prelude
  import opened Wire
  import HubModel
  import Bridge
  import opened DoorModule

  /** A numbered command to one module. */
  datatype Order = Order(id: int, mod: string, target: string, action: string)

  function CommandText(o: Order): string { CommandLine(o.mod, o.id, o.target, o.action) }

  function FeedbackText(o: Order, reply: string): string { FeedbackLine(o.mod, o.id, o.target, reply) }

  /** Everything in front of the target. */
  function Head(o: Order, keyword: string): string { o.mod + " " + keyword + " " + PrintInt(o.id) + " " }

  /** Digits of the largest positive `int`. */
  const ID_DIGITS := 10

  /** No white space that only JavaScript takes for such. */
  ghost predicate PlainBlanks(s: string) {
    forall c | c in s && c in JS_BLANKS :: c in C_BLANKS
  }

  /**
   Any target and any action, with blanks or without, too long or empty. Only the module must be one
   word that fits its buffers, and the id must fit an `int`.
   */
  ghost predicate Sendable(o: Order) {
    && Word(o.mod, JS_BLANKS) && '\0' !in o.mod && |o.mod| <= HubModel.ID_CHARS && |PrintInt(o.id)| <= ID_DIGITS
    && PlainBlanks(o.target) && PlainBlanks(o.action)
  }

  /** What a reader of a COMMAND ends up with: three words for everybody. */
  ghost predicate WellFormed(h: Order) {
    && Word(h.mod, JS_BLANKS) && Word(h.target, JS_BLANKS) && Word(h.action, JS_BLANKS)
    && '\0' !in h.mod && '\0' !in h.target && '\0' !in h.action
    && |h.mod| <= HubModel.ID_CHARS && |PrintInt(h.id)| <= ID_DIGITS
  }

  ghost predicate IsReply(action: string, reply: string) {
    exists state: DoorState :: reply == Reply(action, state)
  }

  /** Neither a COMMAND nor a FEEDBACK to anyone: HELLO, EVENT and HEARTBEAT lines, noise. */
  ghost predicate Stray(text: string) {
    && !HubModel.Complete(Tokens(Received(text), C_BLANKS), HubModel.Command)
    && !HubModel.Complete(Tokens(Received(text), C_BLANKS), HubModel.Feedback)
    && Bridge.FeedbackId(text) == None
  }

  // ---------- The door's command thread ----------

  /** The command a module finds in a received datagram, if it is complete and addressed to it. */
  function ReadCommand(mod: string, text: string): Option<Order> {
    var toks := Tokens(Received(text), C_BLANKS);
    if HubModel.Complete(toks, HubModel.Command) && toks[0] == mod then Some(Order(Atoi(toks[2]), mod, toks[3], toks[4]))
    else None
  }

  /** The command that the addressed module reads in the line printed for `o`. */
  function Seen(o: Order): Option<Order> { ReadCommand(o.mod, CommandText(o)) }

  function CommandsIn(mod: string, inbox: seq<string>): seq<Order> {
    if inbox == [] then []
    else
      CommandsIn(mod, inbox[..|inbox| - 1])
      + match ReadCommand(mod, inbox[|inbox| - 1]) case Some(o) => [o] case None => []
  }

  /** `door_cmd_thread`: the handler is called once for every command to this module, in order of arrival. */
  method CommandThread(moduleId: string, inbox: seq<string>) returns (calls: seq<Order>)
    ensures calls == CommandsIn(moduleId, inbox)
  {
    calls := [];
    for n := 0 to |inbox|
      invariant calls == CommandsIn(moduleId, inbox[..n])
    {
      assert inbox[..n + 1][..n] == inbox[..n];
      var toks := Tokens(Received(inbox[n]), C_BLANKS);
      if |toks| < 2 || toks[1] != "COMMAND" {
        continue;
      }
      var cmdid := if |toks| > 2 then Atoi(toks[2]) else 0;
      if |toks| < 5 {
        continue;
      }
      if toks[0] == moduleId {
        calls := calls + [Order(cmdid, moduleId, toks[3], toks[4])];
      }
    }
    assert inbox[..|inbox|] == inbox;
  }

  /** Each datagram counts for itself: what is called for is what is read in one after the other. */
  lemma {:induction false} CommandsOneByOne(mod: string, inbox: seq<string>, more: seq<string>)
    ensures CommandsIn(mod, inbox + more) == CommandsIn(mod, inbox) + CommandsIn(mod, more)
    ensures |inbox| == 1 ==>
              CommandsIn(mod, inbox) == match ReadCommand(mod, inbox[0]) case Some(o) => [o] case None => []
    decreases |more|
  {
    hide ReadCommand;
    if |inbox| == 1 {
      assert inbox[..0] == [];
    }
    if more == [] {
      assert inbox + more == inbox;
    } else {
      var n := |more| - 1;
      assert (inbox + more)[..|inbox + more| - 1] == inbox + more[..n];
      CommandsOneByOne(mod, inbox, more[..n]);
    }
  }

  // ---------- Lines cut anywhere ----------

  lemma WordsAnywhere(w: string)
    requires Word(w, JS_BLANKS)
    ensures Word(w, C_BLANKS)
  {
    BlankSets();
  }

  lemma HeadTokens(o: Order, keyword: string, rest: string, d: set<char>)
    requires BlankSet(d) && Word(o.mod, d) && Plain(keyword)
    ensures Tokens(Head(o, keyword) + rest, d) == [o.mod, keyword, PrintInt(o.id)] + Tokens(rest, d)
  {
    var x := PrintInt(o.id);
    hide Tokens, Word, Plain, PrintInt;
    PlainIsWord(keyword, d);
    PlainIsWord(x, d);
    var three := x + ([' '] + rest);
    var two := keyword + ([' '] + three);
    assert Head(o, keyword) + rest == o.mod + ([' '] + two);
    TokensOfWord(o.mod, [' '] + two, d);
    TokensAfterBlank(' ', two, d);
    TokensOfWord(keyword, [' '] + three, d);
    TokensAfterBlank(' ', three, d);
    TokensOfWord(x, [' '] + rest, d);
    TokensAfterBlank(' ', rest, d);
  }

  lemma HeadShape(o: Order)
    ensures CommandText(o) == Head(o, "COMMAND") + (o.target + " " + o.action + "\n")
    ensures |Head(o, "COMMAND")| == |o.mod| + |PrintInt(o.id)| + 10
  {
    assert " COMMAND " == " " + "COMMAND" + " ";
  }

  lemma FeedbackHeadShape(o: Order, reply: string)
    ensures FeedbackText(o, reply) == Head(o, "FEEDBACK") + (o.target + " " + reply + "\n")
    ensures |Head(o, "FEEDBACK")| == |o.mod| + |PrintInt(o.id)| + 11
  {
    assert " FEEDBACK " == " " + "FEEDBACK" + " ";
  }

  lemma HeadHasNoNul(o: Order, keyword: string)
    requires '\0' !in o.mod && Plain(keyword)
    ensures '\0' !in Head(o, keyword)
  {
    assert '\0' !in PrintInt(o.id) && '\0' !in keyword;
  }

  /** A short beginning without NUL survives reception. */
  lemma ReceivedKeeps(head: string, rest: string)
    requires |head| <= 255 && '\0' !in head
    ensures head <= Received(head + rest) && Received(head + rest) <= head + rest
  {
    var s := Clip(head + rest, 255);
    assert head <= s;
    assert forall i | 0 <= i < |head| :: s[i] == head[i] && head[i] in head;
  }

  lemma ReceivedTwice(text: string)
    ensures Received(Received(text)) == Received(text) && Received(Clip(text, 255)) == Received(text)
    ensures '\0' !in Received(text) && Received(text) <= text
  {
    ReceivedWhole(Received(text));
  }

  /** Tokens are made of characters of the text. */
  lemma {:induction false} TokenChars(s: string, d: set<char>)
    ensures forall t, c | t in Tokens(s, d) && c in t :: c in s
    decreases |s|
  {
    if s == "" {
    } else if s[0] in d {
      TokenChars(s[1..], d);
    } else {
      TokenChars(s[TokenLen(s, d)..], d);
    }
  }

  // ---------- What is read in a COMMAND ----------

  /** A beginning of the two texts and their separators. */
  lemma LineChars(rest: string, target: string, action: string)
    requires rest <= target + " " + action + "\n"
    ensures forall c | c in rest :: c in target || c in action || c == ' ' || c == '\n'
  {
    assert rest == (target + " " + action + "\n")[..|rest|];
  }

  /** What reception leaves behind the head: characters of target and action, blanks, no NUL. */
  lemma CommandRest(o: Order, got: string) returns (rest: string)
    requires Sendable(o) && got == Received(CommandText(o))
    ensures got == Head(o, "COMMAND") + rest && '\0' !in rest
    ensures forall c | c in rest :: c in o.target || c in o.action || c == ' ' || c == '\n'
  {
    hide Received, Head, PrintInt, Word, PlainBlanks, CommandText;
    SendableHead(o);
    HeadShape(o);
    HeadHasNoNul(o, "COMMAND");
    ReceivedKeeps(Head(o, "COMMAND"), o.target + " " + o.action + "\n");
    ReceivedTwice(CommandText(o));
    rest := got[|Head(o, "COMMAND")|..];
    LineChars(rest, o.target, o.action);
  }

  lemma RestTokens(o: Order, rest: string)
    requires Sendable(o) && '\0' !in rest
    requires forall c | c in rest :: c in o.target || c in o.action || c == ' ' || c == '\n'
    ensures forall t | t in Tokens(rest, C_BLANKS) :: Word(t, JS_BLANKS) && '\0' !in t
  {
    TokensAreWords(rest, C_BLANKS);
    TokenChars(rest, C_BLANKS);
    hide Tokens, PrintInt;
    forall t | t in Tokens(rest, C_BLANKS)
      ensures Word(t, JS_BLANKS) && '\0' !in t
    {
      assert forall c | c in t :: c in rest && c !in C_BLANKS;
    }
  }

  /** Whatever is cut off a COMMAND on its way, its first three tokens and its reader's three words are sound. */
  lemma CommandRead(o: Order, text: string)
    requires Sendable(o) && Received(text) == Received(CommandText(o))
    ensures var toks := Tokens(Received(text), C_BLANKS);
      && |toks| >= 3 && toks[0] == o.mod && toks[1] == "COMMAND" && toks[2] == PrintInt(o.id)
      && forall i | 3 <= i < |toks| :: Word(toks[i], JS_BLANKS) && '\0' !in toks[i]
    ensures Bridge.FeedbackId(text) == None
  {
    hide Received, Tokens, Head, BlankSet, Word, Sendable, PrintInt, CommandText, Bridge.FeedbackId;
    var rest := CommandRest(o, Received(text));
    RestTokens(o, rest);
    BlankSets();
    SendableHead(o);
    assert Plain("COMMAND");
    HeadTokens(o, "COMMAND", rest, C_BLANKS);
    ReceivedTwice(text);
    BridgeIgnores(o, text);
    var toks := Tokens(Received(text), C_BLANKS);
    assert forall i | 3 <= i < |toks| :: toks[i] == Tokens(rest, C_BLANKS)[i - 3];
  }

  lemma BridgeIgnores(o: Order, text: string)
    requires Sendable(o) && Head(o, "COMMAND") <= text
    ensures Bridge.FeedbackId(text) == None
  {
    BlankSets();
    var rest := text[|Head(o, "COMMAND")|..];
    assert text == Head(o, "COMMAND") + rest;
    HeadTokens(o, "COMMAND", rest, JS_BLANKS);
    hide Tokens, Head, Word, PrintInt;
    assert "COMMAND"[0] == 'C' && "FEEDBACK"[0] == 'F';
  }

  /** What the addressed module reads is well formed, has the id and the module sent, and nobody else reads anything. */
  lemma {:induction false} DoorReads(o: Order, text: string, mod: string)
    requires Sendable(o) && Received(text) == Received(CommandText(o))
    ensures ReadCommand(mod, text) == if mod == o.mod then Seen(o) else None
    ensures Seen(o).Some? ==> Seen(o).value.id == o.id && Seen(o).value.mod == o.mod && WellFormed(Seen(o).value)
  {
    CommandRead(o, text);
    NumberRoundTrip(o.id);
    HubModel.Keywords();
    hide Tokens, HubModel.KindOf, PrintInt, Atoi, Received, CommandText, PlainBlanks;
  }

  /** A request arrives as it was meant exactly when its target and action are words that fit the buffer. */
  lemma {:induction false} SeenWholeIff(o: Order)
    requires Sendable(o)
    ensures Seen(o) == Some(o) <==>
            && Word(o.target, C_BLANKS) && Word(o.action, C_BLANKS) && '\0' !in o.target && '\0' !in o.action
            && |Head(o, "COMMAND")| + |o.target| + 1 + |o.action| <= 255
  {
    hide PlainBlanks, Sendable, Received, Tokens, Seen, Head;
    DoorReads(o, CommandText(o), o.mod);
    if Seen(o) == Some(o) {
      WordsAnywhere(o.target);
      WordsAnywhere(o.action);
    }
    if Word(o.target, C_BLANKS) && Word(o.action, C_BLANKS) && '\0' !in o.target && '\0' !in o.action {
      assert Word(o.mod, C_BLANKS) && '\0' !in o.mod && |Head(o, "COMMAND")| <= 36 by {
        SendableHead(o);
      }
      SeenCut(o);
    }
  }

  lemma SeenCut(o: Order)
    requires Word(o.mod, C_BLANKS) && Word(o.target, C_BLANKS) && Word(o.action, C_BLANKS)
    requires '\0' !in o.mod && '\0' !in o.target && '\0' !in o.action && |Head(o, "COMMAND")| <= 36
    ensures var room := 255 - |Head(o, "COMMAND")| - |o.target| - 1;
      Seen(o) == if room <= 0 then None else Some(o.(action := Clip(o.action, room)))
  {
    CutCommand(o);
    NumberRoundTrip(o.id);
    HubModel.Keywords();
    hide Tokens, HubModel.KindOf, PrintInt, Atoi, Received, CommandText, Head, Word;
  }

  lemma SendableHead(o: Order)
    requires Sendable(o)
    ensures Word(o.mod, C_BLANKS) && '\0' !in o.mod && |Head(o, "COMMAND")| <= 36 && |Head(o, "FEEDBACK")| <= 36
  {
    HeadShape(o);
    FeedbackHeadShape(o, "");
    WordsAnywhere(o.mod);
  }

  /** A line cut at 255 characters is cut behind its head. */
  lemma ClipBehind(head: string, line: string)
    requires |head| <= 255
    ensures Clip(head + line, 255) == head + line[..if |head| + |line| <= 255 then |line| else 255 - |head|]
  {
    if |head| + |line| > 255 {
      assert (head + line)[..255] == head + line[..255 - |head|];
    }
  }

  /** Tokens of a COMMAND whose fields are words, cut to fit. */
  lemma CutCommand(o: Order)
    requires Word(o.mod, C_BLANKS) && Word(o.target, C_BLANKS) && Word(o.action, C_BLANKS)
    requires '\0' !in o.mod && '\0' !in o.target && '\0' !in o.action && |Head(o, "COMMAND")| <= 36
    ensures var toks, room := Tokens(Received(CommandText(o)), C_BLANKS), 255 - |Head(o, "COMMAND")| - |o.target| - 1;
      if room <= 0 then |toks| < 5
      else toks == [o.mod, "COMMAND", PrintInt(o.id), o.target, Clip(o.action, room)]
  {
    var head, line := Head(o, "COMMAND"), o.target + " " + o.action + "\n";
    HeadShape(o);
    HeadHasNoNul(o, "COMMAND");
    var n := if |head| + |line| <= 255 then |line| else 255 - |head|;
    ClipBehind(head, line);
    assert '\0' !in line;
    hide Head, Word, Tokens, PrintInt;
    ReceivedWhole(head + line[..n]);
    ReceivedTwice(head + line);
    hide Received;
    BlankSets();
    HeadTokens(o, "COMMAND", line[..n], C_BLANKS);
    TwoWordsCut(o.target, o.action, n, C_BLANKS);
  }

  // ---------- What is read in a FEEDBACK ----------

  /** The FEEDBACK as it leaves the module: at most 255 characters. */
  function FeedbackWire(h: Order, reply: string): string { Clip(FeedbackText(h, reply), 255) }

  /** What is left for the reply. */
  function Room(h: Order): int { 255 - |Head(h, "FEEDBACK")| - |h.target| - 1 }

  /** What a reader of the FEEDBACK is shown of the reply; `None` when the line is no longer complete. */
  function Shown(h: Order, reply: string): (r: Option<string>)
    ensures r.Some? <==> Room(h) > 0
    ensures r.Some? ==> r.value <= reply && (r.value == reply <==> |reply| <= Room(h))
  {
    if Room(h) <= 0 then None else Some(Clip(reply, Room(h)))
  }

  lemma ReplyText(action: string, state: DoorState)
    requires Word(action, JS_BLANKS) && '\0' !in action
    ensures Word(Reply(action, state), JS_BLANKS) && '\0' !in Reply(action, state)
    ensures |Reply(action, state)| <= |action| + 9
    ensures Reply(action, state) == action <==> action != "STATUS"
    ensures action == "STATUS" ==> "STATUS_" <= Reply(action, state) && |Reply(action, state)| <= 15
  {
    BlankSets();
    if action == "STATUS" {
      var text := Reply(action, state);
      assert Plain("STATUS_") && Plain(StateText(state));
      PlainConcat("STATUS_", StateText(state));
      hide Word;
      PlainIsWord(text, JS_BLANKS);
    }
  }

  lemma ReplyIsWord(action: string, reply: string)
    requires Word(action, JS_BLANKS) && '\0' !in action && IsReply(action, reply)
    ensures Word(reply, JS_BLANKS) && '\0' !in reply
  {
    var state: DoorState :| reply == Reply(action, state);
    ReplyText(action, state);
  }

  /** Tokens of a FEEDBACK, cut to fit, for the C and the JavaScript delimiters. */
  lemma CutFeedback(h: Order, reply: string, d: set<char>)
    requires BlankSet(d) && Word(h.mod, d) && Word(h.target, d) && Word(reply, d) && |Head(h, "FEEDBACK")| <= 36
    ensures var toks := Tokens(FeedbackWire(h, reply), d);
      match Shown(h, reply)
      case None => |toks| < 5
      case Some(r) => toks == [h.mod, "FEEDBACK", PrintInt(h.id), h.target, r]
  {
    var head, line := Head(h, "FEEDBACK"), h.target + " " + reply + "\n";
    FeedbackHeadShape(h, reply);
    var n := if |head| + |line| <= 255 then |line| else 255 - |head|;
    ClipBehind(head, line);
    hide Head, Word, Tokens, PrintInt;
    HeadTokens(h, "FEEDBACK", line[..n], d);
    TwoWordsCut(h.target, reply, n, d);
  }

  /** What hub and bridge read in a module's FEEDBACK: id, module, target, and as much of the reply as fits. */
  lemma FeedbackRead(h: Order, reply: string)
    requires WellFormed(h) && IsReply(h.action, reply)
    ensures Received(FeedbackWire(h, reply)) == FeedbackWire(h, reply)
    ensures var toks := Tokens(FeedbackWire(h, reply), C_BLANKS);
      match Shown(h, reply)
      case None => |toks| < 5 && Bridge.FeedbackId(FeedbackWire(h, reply)) == None
      case Some(r) =>
        && toks == [h.mod, "FEEDBACK", PrintInt(h.id), h.target, r]
        && |JsParts(FeedbackWire(h, reply))| >= 5 && Bridge.FeedbackId(FeedbackWire(h, reply)) == Some(h.id)
        && Bridge.FeedbackOf(FeedbackWire(h, reply)) == Bridge.Feedback(h.mod, h.target, r)
  {
    ReplyIsWord(h.action, reply);
    WordsAnywhere(h.mod);
    WordsAnywhere(h.target);
    WordsAnywhere(reply);
    BlankSets();
    FeedbackHeadShape(h, reply);
    HeadHasNoNul(h, "FEEDBACK");
    assert '\0' !in FeedbackWire(h, reply);
    ReceivedWhole(FeedbackWire(h, reply));
    hide Word, FeedbackWire, Received, Head, Room, BlankSet;
    CutFeedback(h, reply, C_BLANKS);
    CutFeedback(h, reply, JS_BLANKS);
    NumberRoundTrip(h.id);
    if Shown(h, reply).Some? {
      var r := Shown(h, reply).value;
      assert JsParts(FeedbackWire(h, reply)) == [h.mod, "FEEDBACK", PrintInt(h.id), h.target, r];
      assert [h.mod, "FEEDBACK", PrintInt(h.id), h.target, r][4..] == [r];
    }
  }

  /** Printing what was read in a FEEDBACK gives the same line again, also when it had been cut. */
  lemma FeedbackReprint(h: Order, reply: string)
    requires Shown(h, reply).Some?
    ensures Clip(FeedbackLine(h.mod, h.id, h.target, Shown(h, reply).value), 255) == FeedbackWire(h, reply)
  {
    var r := Shown(h, reply).value;
    FeedbackHeadShape(h, reply);
    FeedbackHeadShape(h, r);
    var front := Head(h, "FEEDBACK") + h.target + " ";
    assert FeedbackText(h, reply) == front + reply + "\n" && FeedbackText(h, r) == front + r + "\n";
    if r != reply {
      assert front + r == (front + reply + "\n")[..255];
    }
  }

  // ---------- Requests that arrive as they were meant, and whose answers do ----------

  /** Three words that fit the buffers also in the FEEDBACK, which has at most 10 characters more, and no NUL. */
  ghost predicate Fits(o: Order) {
    Sendable(o) && WellFormed(o) && |CommandText(o)| <= 245
  }

  /** If a COMMAND of words fits in 245 characters, it is read as it was sent and any reply to it is shown in full. */
  lemma FeedbackFits(o: Order, reply: string)
    requires Fits(o) && IsReply(o.action, reply)
    ensures Seen(o) == Some(o) && Shown(o, reply) == Some(reply)
  {
    HeadShape(o);
    FeedbackHeadShape(o, reply);
    WordsAnywhere(o.target);
    WordsAnywhere(o.action);
    hide Head, CommandText, FeedbackText;
    SeenWholeIff(o);
    var state: DoorState :| reply == Reply(o.action, state);
    ReplyText(o.action, state);
  }

  /** Apart from STATUS, whose reply is longer, a request read as it was sent is answered in full up to one character. */
  lemma {:induction false} EchoFits(o: Order, reply: string)
    requires Sendable(o) && Seen(o) == Some(o) && IsReply(o.action, reply) && o.action != "STATUS"
    ensures Shown(o, reply) == Some(reply) <==> |CommandText(o)| <= 255
  {
    HeadShape(o);
    FeedbackHeadShape(o, reply);
    SeenWholeIff(o);
    var state: DoorState :| reply == Reply(o.action, state);
  }
}
