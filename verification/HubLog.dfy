/** What the entries of the hub's history say, read off their tokens. */
module HubLog {
  import opened Prelude
  import opened Wire
  import opened HubModel

  /** The tokens of an entry. */
  function Words(x: Entry): seq<string> { Tokens(x.line, C_BLANKS) }

  // ---------- What a line writes ----------

  const UNTRACKED := "<NO-STATE> (untracked)"

  lemma LineLog(h: HubState, line: string, src: Addr, t: int, issued: int)
    requires h.pending != []
    ensures var toks := Tokens(line, C_BLANKS);
      HandleLine(h, line, src, t, issued).0.log ==
        if |toks| < 2 then h.log
        else h.log + if DoorSlot(h.doors, toks[0]) == |h.doors| then [MakeEntry(t, toks[0], UNTRACKED)]
                     else LogAfter(toks, t)
  {
  }

  /** Two words with a space between, cut anywhere, make at most two tokens. */
  lemma TwoWordsClipped(t: string, r: string, n: nat)
    requires Word(t, C_BLANKS) && Word(r, C_BLANKS)
    ensures |Tokens(Clip(t + " " + r, n), C_BLANKS)| <= 2
    ensures |t| + 1 + |r| <= n ==> Tokens(Clip(t + " " + r, n), C_BLANKS) == [t, r]
  {
    BlankSets();
    var m := if |t| + 1 + |r| <= n then |t| + 1 + |r| else n;
    assert Clip(t + " " + r, n) == (t + " " + r + "\n")[..m];
    TwoWordsCut(t, r, m, C_BLANKS);
    hide Tokens;
  }

  lemma TokensOfFour(a: string, b: string, c: string, d: string)
    requires Word(a, C_BLANKS) && Word(b, C_BLANKS) && Word(c, C_BLANKS) && Word(d, C_BLANKS)
    ensures Tokens(a + " " + b + " " + c + " " + d, C_BLANKS) == [a, b, c, d]
  {
    hide Word, Tokens;
    var tail := c + " " + d;
    BlankSets();
    TwoWordsClipped(c, d, |tail|);
    TokensOfWord(b, [' '] + tail, C_BLANKS);
    TokensAfterBlank(' ', tail, C_BLANKS);
    var rest := b + ([' '] + tail);
    TokensOfWord(a, [' '] + rest, C_BLANKS);
    TokensAfterBlank(' ', rest, C_BLANKS);
    assert a + " " + b + " " + c + " " + d == a + ([' '] + rest);
  }

  /** The text the hub keeps of a FEEDBACK. */
  function FeedbackNote(id: int, target: string, action: string): string {
    "FEEDBACK " + PrintInt(id) + " " + target + " " + action
  }

  lemma NoteTokens(id: int, target: string, action: string)
    requires Word(target, C_BLANKS) && Word(action, C_BLANKS)
    ensures Tokens(FeedbackNote(id, target, action), C_BLANKS) == ["FEEDBACK", PrintInt(id), target, action]
  {
    BlankSets();
    assert Plain("FEEDBACK");
    PlainIsWord("FEEDBACK", C_BLANKS);
    PlainIsWord(PrintInt(id), C_BLANKS);
    hide Tokens, Word, PrintInt, Plain;
    TokensOfFour("FEEDBACK", PrintInt(id), target, action);
    assert "FEEDBACK " == "FEEDBACK" + " ";
  }

  /** However such a note is cut, its second token is no EVENT. */
  lemma NoteIsNoEvent(id: int, target: string, action: string)
    ensures var toks := Tokens(Clip(FeedbackNote(id, target, action), 255), C_BLANKS);
      |toks| > 1 ==> toks[1] != "EVENT"
  {
    var text := Clip(FeedbackNote(id, target, action), 255);
    var rest := text[9..];
    BlankSets();
    assert Plain("FEEDBACK");
    PlainIsWord("FEEDBACK", C_BLANKS);
    assert text == "FEEDBACK" + ([' '] + rest);
    assert rest[0] == PrintInt(id)[0];
    FirstDigit(id);
    TokensOfWord("FEEDBACK", [' '] + rest, C_BLANKS);
    TokensAfterBlank(' ', rest, C_BLANKS);
    FirstLetter(rest);
    hide Tokens;
    assert "EVENT"[0] == 'E';
  }

  lemma FirstDigit(id: int)
    ensures PrintInt(id)[0] == '-' || IsDigit(PrintInt(id)[0])
  {
  }

  lemma FirstLetter(s: string)
    requires s != "" && s[0] !in C_BLANKS
    ensures Tokens(s, C_BLANKS) != [] && Tokens(s, C_BLANKS)[0] != "" && Tokens(s, C_BLANKS)[0][0] == s[0]
  {
    assert TokenLen(s, C_BLANKS) > 0;
  }

  /**
   A line of a module with a record leaves one entry with its first two tokens; a complete FEEDBACK a second
   one with its id, target and action. All carry the time of the line and the module's id as it is stored.
   */
  lemma {:induction false} WhatLinesLog(toks: seq<string>, t: int)
    requires |toks| >= 2 && forall w | w in toks :: Word(w, C_BLANKS)
    ensures var log := LogAfter(toks, t);
      && |log| == (if |toks| >= 5 && toks[1] == "FEEDBACK" then 2 else 1)
      && (forall x | x in log :: x.time == t && x.mod == Clip(toks[0], 15))
      && (|toks[0]| + 1 + |toks[1]| <= 255 ==> Words(log[0]) == toks[..2])
      && (|log| == 2 && |FeedbackNote(Atoi(toks[2]), toks[3], toks[4])| <= 255 ==>
            Words(log[1]) == ["FEEDBACK", PrintInt(Atoi(toks[2])), toks[3], toks[4]])
  {
    assert toks[0] in toks && toks[1] in toks;
    if |toks| >= 5 {
      assert toks[3] in toks && toks[4] in toks;
      NoteTokens(Atoi(toks[2]), toks[3], toks[4]);
    }
    hide Tokens, Word, PrintInt, Atoi;
    assert Complete(toks, Feedback) <==> |toks| >= 5 && toks[1] == "FEEDBACK";
    TwoWordsClipped(toks[0], toks[1], 255);
    assert toks[..2] == [toks[0], toks[1]];
  }

  // ---------- Liveness entries ----------

  /** What an entry says about the liveness of a module: true for OFFLINE, false for ONLINE. */
  function Verdict(x: Entry, mod: string): seq<bool> {
    if x.mod != mod then []
    else if Words(x) == [mod, "EVENT", "SYSTEM", "OFFLINE"] then [true]
    else if Words(x) == [mod, "EVENT", "SYSTEM", "ONLINE"] then [false]
    else []
  }

  /** The liveness entries of one module, oldest first. */
  function Liveness(log: seq<Entry>, mod: string): seq<bool> {
    if log == [] then [] else Liveness(log[..|log| - 1], mod) + Verdict(log[|log| - 1], mod)
  }

  lemma {:induction false} LivenessSplit(a: seq<Entry>, b: seq<Entry>, mod: string)
    ensures Liveness(a + b, mod) == Liveness(a, mod) + Liveness(b, mod)
  {
    hide Verdict;
    if b == [] {
      assert a + b == a;
    } else {
      assert (a + b)[..|a + b| - 1] == a + b[..|b| - 1];
      LivenessSplit(a, b[..|b| - 1], mod);
    }
  }

  lemma LivenessOfOne(x: Entry, mod: string)
    ensures Liveness([x], mod) == Verdict(x, mod)
  {
    hide Verdict;
    assert [x][..0] == [];
  }

  /** The two texts of a check split into these four words. */
  lemma {:induction false} SystemLines(mod: string)
    requires Word(mod, C_BLANKS)
    ensures Tokens(OfflineLine(mod), C_BLANKS) == [mod, "EVENT", "SYSTEM", "OFFLINE"]
    ensures Tokens(OnlineLine(mod), C_BLANKS) == [mod, "EVENT", "SYSTEM", "ONLINE"]
  {
    SystemTexts();
    SystemLine(mod, "OFFLINE");
    SystemLine(mod, "ONLINE");
    hide Tokens, Word, Line;
  }

  lemma SystemTexts()
    ensures " EVENT SYSTEM OFFLINE\n" == " " + (("EVENT" + " ") + (("SYSTEM" + " ") + ("OFFLINE" + "\n")))
    ensures " EVENT SYSTEM ONLINE\n" == " " + (("EVENT" + " ") + (("SYSTEM" + " ") + ("ONLINE" + "\n")))
    ensures Plain("EVENT") && Plain("SYSTEM") && Plain("OFFLINE") && Plain("ONLINE")
  {
  }

  lemma SystemLine(mod: string, state: string)
    requires Word(mod, C_BLANKS) && Plain("EVENT") && Plain("SYSTEM") && Plain(state)
    ensures Tokens(mod + (" " + (("EVENT" + " ") + (("SYSTEM" + " ") + (state + "\n")))), C_BLANKS) == [mod, "EVENT", "SYSTEM", state]
  {
    BlankSets();
    PlainIsWord("EVENT", C_BLANKS);
    PlainIsWord("SYSTEM", C_BLANKS);
    PlainIsWord(state, C_BLANKS);
    FourWords(mod, "EVENT", "SYSTEM", state);
  }

  lemma FourWords(a: string, b: string, c: string, d: string)
    requires Word(a, C_BLANKS) && Word(b, C_BLANKS) && Word(c, C_BLANKS) && Word(d, C_BLANKS)
    ensures Tokens(a + (" " + ((b + " ") + ((c + " ") + (d + "\n")))), C_BLANKS) == [a, b, c, d]
  {
    hide Word, Tokens;
    BlankSets();
    LineOfOne(d);
    LineOfMore(c, [d]);
    LineOfMore(b, [c, d]);
    LineOfMore(a, [b, c, d]);
    hide Line;
    assert [c] + [d] == [c, d] && [b] + [c, d] == [b, c, d] && [a] + [b, c, d] == [a, b, c, d];
    assert a + (" " + ((b + " ") + ((c + " ") + (d + "\n")))) == a + " " + ((b + " ") + ((c + " ") + (d + "\n")));
    TokensOfLine([a, b, c, d], C_BLANKS);
  }

  /**
   What a check writes about a record: OFFLINE for an online module unheard for more than ten seconds,
   ONLINE for an offline one heard again, nothing otherwise.
   */
  lemma {:induction false} WhatChecksLog(d: DoorRec, now: int)
    requires d.known && Word(d.id, C_BLANKS) && |d.id| <= ID_CHARS
    ensures var entries := CheckEntry(d, now);
      if now - d.lastHeartbeat > 10000 && !d.offline then
        |entries| == 1 && entries[0].time == now && entries[0].mod == d.id
        && Words(entries[0]) == [d.id, "EVENT", "SYSTEM", "OFFLINE"]
      else if now - d.lastHeartbeat <= 10000 && d.offline then
        |entries| == 1 && entries[0].time == now && entries[0].mod == d.id
        && Words(entries[0]) == [d.id, "EVENT", "SYSTEM", "ONLINE"]
      else entries == []
  {
    SystemLines(d.id);
    hide Tokens, Word;
    assert |OfflineLine(d.id)| <= 255 && |OnlineLine(d.id)| <= 255;
    hide OfflineLine, OnlineLine;
  }

  /** What it changes in the record: the flag, and on going offline the time of it. */
  lemma WhatChecksChange(d: DoorRec, now: int)
    ensures var e := CheckDoor(d, now);
      && e == d.(offline := e.offline, lastOnline := e.lastOnline)
      && (d.known ==> (e.offline <==> now - d.lastHeartbeat > 10000))
      && (!d.known ==> e == d)
      && e.lastOnline == if e.offline && !d.offline then now else d.lastOnline
  {
  }

  /** No received line can forge a liveness entry: what it leaves has other tokens. */
  lemma {:induction false} LinesAddNoLiveness(toks: seq<string>, t: int, mod: string)
    requires |toks| >= 2 && forall w | w in toks :: Word(w, C_BLANKS)
    ensures Liveness(LogAfter(toks, t), mod) == []
    ensures Liveness([MakeEntry(t, toks[0], UNTRACKED)], mod) == []
  {
    assert toks[0] in toks && toks[1] in toks;
    TwoWordsClipped(toks[0], toks[1], 255);
    hide Tokens, Word, Liveness, PrintInt, Atoi, Verdict;
    UntrackedIsNoVerdict(toks[0], t, mod);
    LivenessOfOne(MakeEntry(t, toks[0], UNTRACKED), mod);
    var first := MakeEntry(t, toks[0], Clip(toks[0] + " " + toks[1], 255));
    ShortIsNoVerdict(first, mod);
    LivenessOfOne(first, mod);
    if Complete(toks, Feedback) {
      var second := MakeEntry(t, toks[0], Clip(FeedbackNote(Atoi(toks[2]), toks[3], toks[4]), 255));
      NoteIsNoEvent(Atoi(toks[2]), toks[3], toks[4]);
      OtherIsNoVerdict(second, mod);
      hide FeedbackNote;
      LivenessOfOne(second, mod);
      LivenessSplit([first], [second], mod);
    }
    LogIs(toks, t);
  }

  lemma LogIs(toks: seq<string>, t: int)
    requires |toks| >= 2
    ensures var first := MakeEntry(t, toks[0], Clip(toks[0] + " " + toks[1], 255));
      if Complete(toks, Feedback) then
        LogAfter(toks, t) == [first] + [MakeEntry(t, toks[0], Clip(FeedbackNote(Atoi(toks[2]), toks[3], toks[4]), 255))]
      else LogAfter(toks, t) == [first]
  {
    hide PrintInt, Atoi, MakeEntry;
  }

  lemma UntrackedIsNoVerdict(id: string, t: int, mod: string)
    ensures Verdict(MakeEntry(t, id, UNTRACKED), mod) == []
  {
    BlankSets();
    PlainIsWord("<NO-STATE>", C_BLANKS);
    PlainIsWord("(untracked)", C_BLANKS);
    hide Tokens, Word;
    assert UNTRACKED == "<NO-STATE>" + " " + "(untracked)";
    TwoWordsClipped("<NO-STATE>", "(untracked)", 255);
    ShortIsNoVerdict(MakeEntry(t, id, UNTRACKED), mod);
  }

  lemma ShortIsNoVerdict(x: Entry, mod: string)
    requires |Words(x)| <= 2
    ensures Verdict(x, mod) == []
  {
  }

  lemma OtherIsNoVerdict(x: Entry, mod: string)
    requires |Words(x)| > 1 ==> Words(x)[1] != "EVENT"
    ensures Verdict(x, mod) == []
  {
    hide Words;
  }
}
