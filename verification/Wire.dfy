/**
 The textual wire format spoken by the door modules, the hub and the Node bridge:
 how a line is cut into tokens, how numbers are printed and read, and the five lines
 of the protocol.
 */
module Wire {
  import opened Prelude

  // ---------- Tokens ----------

  /** The delimiters every `strtok_r` call of the C programs uses. */
  const C_BLANKS: set<char> := {' ', '\t', '\r', '\n'}

  /** The characters that JavaScript's `trim` and `\s` treat as white space. */
  const JS_BLANKS: set<char> :=
    {' ', '\t', '\r', '\n', '\U{000B}', '\U{000C}', '\U{00A0}', '\U{1680}',
     '\U{2000}', '\U{2001}', '\U{2002}', '\U{2003}', '\U{2004}', '\U{2005}', '\U{2006}',
     '\U{2007}', '\U{2008}', '\U{2009}', '\U{200A}', '\U{2028}', '\U{2029}', '\U{202F}',
     '\U{205F}', '\U{3000}', '\U{FEFF}'}

  /** A usable delimiter set separates words and lines and contains no printable ASCII character. */
  ghost predicate BlankSet(d: set<char>) {
    ' ' in d && '\n' in d && forall c | c in d :: c <= ' ' || '\U{00A0}' <= c
  }

  /** A non-empty string without delimiters. */
  predicate Word(s: string, d: set<char>) {
    s != "" && forall c | c in s :: c !in d
  }

  /** Printable ASCII without the space: a word for every delimiter set. */
  predicate Plain(s: string) {
    s != "" && forall i | 0 <= i < |s| :: ' ' < s[i] < '\U{00A0}'
  }

  lemma BlankSets()
    ensures BlankSet(C_BLANKS) && BlankSet(JS_BLANKS) && C_BLANKS <= JS_BLANKS
  {
  }

  lemma PlainIsWord(s: string, d: set<char>)
    requires Plain(s) && BlankSet(d)
    ensures Word(s, d)
  {
  }

  /** Length of the longest prefix without delimiters. */
  function TokenLen(s: string, d: set<char>): (n: nat)
    ensures n <= |s|
    ensures forall i | 0 <= i < n :: s[i] !in d
    ensures n < |s| ==> s[n] in d
  {
    if s == "" || s[0] in d then 0 else 1 + TokenLen(s[1..], d)
  }

  /** All tokens that successive `strtok_r` calls return: maximal runs of non-delimiters. */
  function Tokens(s: string, d: set<char>): seq<string> {
    if s == "" then []
    else if s[0] in d then Tokens(s[1..], d)
    else [s[..TokenLen(s, d)]] + Tokens(s[TokenLen(s, d)..], d)
  }

  lemma {:induction false} TokensAreWords(s: string, d: set<char>)
    ensures forall t | t in Tokens(s, d) :: Word(t, d)
    decreases |s|
  {
    if s == "" {
    } else if s[0] in d {
      TokensAreWords(s[1..], d);
    } else {
      TokensAreWords(s[TokenLen(s, d)..], d);
    }
  }

  lemma TokenLenOfWord(w: string, rest: string, d: set<char>)
    requires Word(w, d) && (rest == "" || rest[0] in d)
    ensures TokenLen(w + rest, d) == |w|
  {
    assert forall i | 0 <= i < |w| :: (w + rest)[i] == w[i] && w[i] in w;
    if rest != "" {
      assert (w + rest)[|w|] == rest[0];
    }
  }

  lemma TokensOfWord(w: string, rest: string, d: set<char>)
    requires Word(w, d) && (rest == "" || rest[0] in d)
    ensures Tokens(w + rest, d) == [w] + Tokens(rest, d)
  {
    TokenLenOfWord(w, rest, d);
    assert w[0] in w && (w + rest)[0] == w[0];
    assert (w + rest)[..|w|] == w && (w + rest)[|w|..] == rest;
  }

  /** The words separated by single spaces and ended by a newline. */
  function Line(ws: seq<string>): string {
    if |ws| == 0 then "\n"
    else if |ws| == 1 then ws[0] + "\n"
    else ws[0] + " " + Line(ws[1..])
  }

  /** Splitting a printed line gives back what was printed exactly when every piece is a word. */
  lemma {:induction false} LineRoundTrip(ws: seq<string>, d: set<char>)
    requires BlankSet(d)
    ensures Tokens(Line(ws), d) == ws <==> forall w | w in ws :: Word(w, d)
  {
    if forall w | w in ws :: Word(w, d) {
      TokensOfLine(ws, d);
    } else {
      TokensAreWords(Line(ws), d);
    }
  }

  lemma TokensAfterBlank(blank: char, rest: string, d: set<char>)
    requires blank in d
    ensures Tokens([blank] + rest, d) == Tokens(rest, d)
  {
    assert ([blank] + rest)[1..] == rest;
  }

  lemma {:induction false} TokensOfLine(ws: seq<string>, d: set<char>)
    requires BlankSet(d) && forall w | w in ws :: Word(w, d)
    ensures Tokens(Line(ws), d) == ws
  {
    assert Tokens("\n", d) == [] by {
      TokensAfterBlank('\n', "", d);
      assert ['\n'] + "" == "\n";
    }
    if |ws| == 0 {
    } else if |ws| == 1 {
      TokensOfWord(ws[0], "\n", d);
      hide Tokens, Word;
      assert [ws[0]] + [] == ws;
    } else {
      var rest := [' '] + Line(ws[1..]);
      TokensOfWord(ws[0], rest, d);
      TokensAfterBlank(' ', Line(ws[1..]), d);
      TokensOfLine(ws[1..], d);
      hide Tokens, Word;
      assert Line(ws) == ws[0] + rest;
      assert [ws[0]] + ws[1..] == ws;
    }
  }

  /** Two words and a newline, cut after `n` characters. */
  lemma TwoWordsCut(t: string, r: string, n: nat, d: set<char>)
    requires BlankSet(d) && Word(t, d) && Word(r, d) && n <= |t| + 1 + |r| + 1
    ensures Tokens((t + " " + r + "\n")[..n], d)
            == if n == 0 then [] else if n <= |t| then [t[..n]]
               else if n == |t| + 1 then [t] else [t, Clip(r, n - |t| - 1)]
  {
    var line := t + " " + r + "\n";
    assert Tokens("", d) == [];
    if n == 0 {
    } else if n <= |t| {
      assert line[..n] == t[..n] + "";
      assert Word(t[..n], d);
      TokensOfWord(t[..n], "", d);
    } else {
      var rest := (r + "\n")[..n - |t| - 1];
      assert line[..n] == t + ([' '] + rest);
      TokensOfWord(t, [' '] + rest, d);
      TokensAfterBlank(' ', rest, d);
      OneWordCut(r, n - |t| - 1, d);
    }
  }

  lemma OneWordCut(r: string, n: nat, d: set<char>)
    requires BlankSet(d) && Word(r, d) && n <= |r| + 1
    ensures Tokens((r + "\n")[..n], d) == if n == 0 then [] else [Clip(r, n)]
  {
    assert Tokens("", d) == [];
    if n > |r| {
      assert (r + "\n")[..n] == r + ['\n'];
      TokensAfterBlank('\n', "", d);
      assert ['\n'] + "" == ['\n'];
      TokensOfWord(r, ['\n'], d);
    } else if n > 0 {
      assert (r + "\n")[..n] == r[..n] + "" && r[..n] == Clip(r, n);
      assert Word(r[..n], d);
      TokensOfWord(r[..n], "", d);
    }
  }

  /** `msg.trim().split(/\s+/)`: the tokens, except that a blank message gives one empty part. */
  function JsParts(msg: string): (parts: seq<string>)
    ensures parts != []
  {
    var ts := Tokens(msg, JS_BLANKS);
    if ts == [] then [""] else ts
  }

  // ---------- Numbers ----------

  predicate IsDigit(c: char) { '0' <= c <= '9' }

  function Digit(n: nat): (c: char)
    requires n < 10
    ensures IsDigit(c) && DigitValue(c) == n
  {
    ('0' as int + n) as char
  }

  function DigitValue(c: char): (n: nat)
    requires IsDigit(c)
    ensures n < 10
  {
    c as int - '0' as int
  }

  function PrintNat(n: nat): (s: string)
    ensures s != "" && forall i | 0 <= i < |s| :: IsDigit(s[i])
  {
    if n < 10 then [Digit(n)] else PrintNat(n / 10) + [Digit(n % 10)]
  }

  /** The text `%d` and a template literal produce. */
  function PrintInt(i: int): (s: string)
    ensures Plain(s)
    ensures s[0] == '-' <==> i < 0
  {
    if i < 0 then "-" + PrintNat(-i) else PrintNat(i)
  }

  function ReadDigits(s: string, acc: nat): nat {
    if s == "" || !IsDigit(s[0]) then acc else ReadDigits(s[1..], 10 * acc + DigitValue(s[0]))
  }

  predicate IsCSpace(c: char) { c == ' ' || '\t' <= c <= '\r' }

  /** C's `atoi`: optional spaces, an optional sign, digits; 0 when there is no number. */
  function Atoi(s: string): int {
    if s == "" then 0
    else if IsCSpace(s[0]) then Atoi(s[1..])
    else if s[0] == '-' then 0 - ReadDigits(s[1..], 0)
    else if s[0] == '+' then ReadDigits(s[1..], 0)
    else ReadDigits(s, 0)
  }

  /** JavaScript's `parseInt(s, 10)` on a part without spaces; `None` is NaN. */
  function ParseInt(s: string): Option<int> {
    var negative := s != "" && s[0] == '-';
    var digits := if negative || (s != "" && s[0] == '+') then s[1..] else s;
    if digits == "" || !IsDigit(digits[0]) then None
    else Some(if negative then 0 - ReadDigits(digits, 0) else ReadDigits(digits, 0))
  }

  lemma {:induction false} ReadDigitsSplit(u: string, v: string, acc: nat)
    requires forall i | 0 <= i < |u| :: IsDigit(u[i])
    ensures ReadDigits(u + v, acc) == ReadDigits(v, ReadDigits(u, acc))
    decreases |u|
  {
    if u == "" {
      assert u + v == v;
    } else {
      assert (u + v)[1..] == u[1..] + v;
      ReadDigitsSplit(u[1..], v, 10 * acc + DigitValue(u[0]));
    }
  }

  lemma {:induction false} ReadPrintNat(n: nat)
    ensures ReadDigits(PrintNat(n), 0) == n
  {
    var last := [Digit(n % 10)];
    assert last[1..] == "";
    if n < 10 {
      assert ReadDigits(last, 0) == ReadDigits("", n) == n;
    } else {
      ReadPrintNat(n / 10);
      ReadDigitsSplit(PrintNat(n / 10), last, 0);
      assert ReadDigits(last, n / 10) == ReadDigits("", 10 * (n / 10) + n % 10) == n;
    }
  }

  /** What one program prints with `%d`, `atoi` and `parseInt` both read back. */
  lemma NumberRoundTrip(i: int)
    ensures Atoi(PrintInt(i)) == i
    ensures ParseInt(PrintInt(i)) == Some(i)
  {
    if i < 0 {
      ReadPrintNat(-i);
      assert PrintInt(i)[1..] == PrintNat(-i);
    } else {
      ReadPrintNat(i);
    }
  }

  // ---------- Lines ----------

  /** The common shape `%s<separator>%s %s %s\n` of the five-field lines. */
  function Fields(mod: string, separator: string, x: string, y: string, z: string): string {
    mod + separator + x + " " + y + " " + z + "\n"
  }

  function CommandLine(mod: string, id: int, target: string, action: string): string {
    Fields(mod, " COMMAND ", PrintInt(id), target, action)
  }

  function FeedbackLine(mod: string, id: int, target: string, action: string): string {
    Fields(mod, " FEEDBACK ", PrintInt(id), target, action)
  }

  function EventLine(mod: string, which: string, what: string, state: string): string {
    Fields(mod, " EVENT ", which, what, state)
  }

  function HelloLine(mod: string): string {
    mod + " HELLO\n"
  }

  function OpenText(open: bool): string { if open then "OPEN" else "CLOSED" }

  function LockText(locked: bool): string { if locked then "LOCKED" else "UNLOCKED" }

  /** `D0=OPEN,LOCKED` and its variants. */
  function StateToken(channel: string, open: bool, locked: bool): string {
    channel + "=" + OpenText(open) + "," + LockText(locked)
  }

  /** A heartbeat repeats the one door/lock pair on both channels. */
  function HeartbeatLine(mod: string, open: bool, locked: bool): string {
    mod + " HEARTBEAT " + StateToken("D0", open, locked) + " " + StateToken("D1", open, locked) + "\n"
  }

  lemma {:induction false} FieldsAreALine(mod: string, keyword: string, x: string, y: string, z: string)
    ensures Fields(mod, " " + keyword + " ", x, y, z) == Line([mod, keyword, x, y, z])
  {
    LineOfOne(z);
    LineOfMore(y, [z]);
    LineOfMore(x, [y, z]);
    LineOfMore(keyword, [x, y, z]);
    LineOfMore(mod, [keyword, x, y, z]);
    hide Line;
    assert [y] + [z] == [y, z] && [x] + [y, z] == [x, y, z] && [keyword] + [x, y, z] == [keyword, x, y, z];
    assert [mod] + [keyword, x, y, z] == [mod, keyword, x, y, z];
  }

  lemma LineOfOne(w: string)
    ensures Line([w]) == w + "\n"
  {
  }

  lemma LineOfMore(w: string, ws: seq<string>)
    requires ws != []
    ensures Line([w] + ws) == w + " " + Line(ws)
  {
    assert ([w] + ws)[1..] == ws;
  }

  lemma FieldsRoundTrip(mod: string, keyword: string, x: string, y: string, z: string, d: set<char>)
    requires BlankSet(d) && Plain(keyword)
    ensures Tokens(Fields(mod, " " + keyword + " ", x, y, z), d) == [mod, keyword, x, y, z]
            <==> Word(mod, d) && Word(x, d) && Word(y, d) && Word(z, d)
  {
    var ws := [mod, keyword, x, y, z];
    FieldsAreALine(mod, keyword, x, y, z);
    PlainIsWord(keyword, d);
    assert ws[0] in ws && ws[2] in ws && ws[3] in ws && ws[4] in ws;
    LineRoundTrip(ws, d);
  }

  /** COMMAND: every receiver recovers the fields exactly when the three texts are words. */
  lemma CommandRoundTrip(mod: string, id: int, target: string, action: string, d: set<char>)
    requires BlankSet(d)
    ensures Tokens(CommandLine(mod, id, target, action), d) == [mod, "COMMAND", PrintInt(id), target, action]
            <==> Word(mod, d) && Word(target, d) && Word(action, d)
  {
    assert " COMMAND " == " " + "COMMAND" + " ";
    PlainIsWord(PrintInt(id), d);
    FieldsRoundTrip(mod, "COMMAND", PrintInt(id), target, action, d);
  }

  /** FEEDBACK: likewise, at the hub and at the bridge. */
  lemma FeedbackRoundTrip(mod: string, id: int, target: string, action: string, d: set<char>)
    requires BlankSet(d)
    ensures Tokens(FeedbackLine(mod, id, target, action), d) == [mod, "FEEDBACK", PrintInt(id), target, action]
            <==> Word(mod, d) && Word(target, d) && Word(action, d)
  {
    assert " FEEDBACK " == " " + "FEEDBACK" + " ";
    PlainIsWord(PrintInt(id), d);
    FieldsRoundTrip(mod, "FEEDBACK", PrintInt(id), target, action, d);
  }

  /** EVENT: likewise. */
  lemma EventRoundTrip(mod: string, which: string, what: string, state: string, d: set<char>)
    requires BlankSet(d)
    ensures Tokens(EventLine(mod, which, what, state), d) == [mod, "EVENT", which, what, state]
            <==> Word(mod, d) && Word(which, d) && Word(what, d) && Word(state, d)
  {
    assert " EVENT " == " " + "EVENT" + " ";
    FieldsRoundTrip(mod, "EVENT", which, what, state, d);
  }

  lemma HelloRoundTrip(mod: string, d: set<char>)
    requires BlankSet(d)
    ensures Tokens(HelloLine(mod), d) == [mod, "HELLO"] <==> Word(mod, d)
  {
    var ws := [mod, "HELLO"];
    assert ws[1..] == ["HELLO"] && Line(["HELLO"]) == "HELLO" + "\n";
    assert HelloLine(mod) == Line(ws);
    PlainIsWord("HELLO", d);
    assert ws[0] in ws;
    LineRoundTrip(ws, d);
  }

  lemma PlainConcat(s: string, t: string)
    requires Plain(s) && Plain(t)
    ensures Plain(s + t)
  {
  }

  lemma StateTokenPlain(channel: string, open: bool, locked: bool)
    requires Plain(channel)
    ensures Plain(StateToken(channel, open, locked))
  {
    assert Plain(OpenText(open)) && Plain(LockText(locked));
    assert Plain("=") && Plain(",");
    hide OpenText, LockText, Plain;
    PlainConcat(channel, "=");
    PlainConcat(channel + "=", OpenText(open));
    PlainConcat(channel + "=" + OpenText(open), ",");
    PlainConcat(channel + "=" + OpenText(open) + ",", LockText(locked));
  }

  lemma {:induction false} HeartbeatIsALine(mod: string, t0: string, t1: string)
    ensures mod + " HEARTBEAT " + t0 + " " + t1 + "\n" == Line([mod, "HEARTBEAT", t0, t1])
  {
    assert [mod, "HEARTBEAT", t0, t1][1..] == ["HEARTBEAT", t0, t1];
    assert ["HEARTBEAT", t0, t1][1..] == [t0, t1] && [t0, t1][1..] == [t1];
    var tail2 := t0 + " " + Line([t1]);
    var tail3 := "HEARTBEAT" + " " + tail2;
    assert Line([t0, t1]) == tail2;
    assert Line(["HEARTBEAT", t0, t1]) == tail3;
    assert " HEARTBEAT " == " " + "HEARTBEAT" + " ";
    assert mod + " HEARTBEAT " + tail2 == mod + " " + tail3;
    assert tail2 == t0 + " " + t1 + "\n";
  }

  /** HEARTBEAT: likewise; the two state tokens are words whatever the state. */
  lemma {:induction false} HeartbeatRoundTrip(mod: string, open: bool, locked: bool, d: set<char>)
    requires BlankSet(d)
    ensures Tokens(HeartbeatLine(mod, open, locked), d)
            == [mod, "HEARTBEAT", StateToken("D0", open, locked), StateToken("D1", open, locked)]
            <==> Word(mod, d)
  {
    var t0, t1 := StateToken("D0", open, locked), StateToken("D1", open, locked);
    var ws := [mod, "HEARTBEAT", t0, t1];
    HeartbeatIsALine(mod, t0, t1);
    StateTokenPlain("D0", open, locked);
    StateTokenPlain("D1", open, locked);
    PlainIsWord("HEARTBEAT", d);
    PlainIsWord(t0, d);
    PlainIsWord(t1, d);
    assert ws[0] in ws;
    LineRoundTrip(ws, d);
  }

  // ---------- The D0=... sub-syntax ----------

  /** `strchr`: position of the first `c`, or the length when there is none. */
  function IndexOf(s: string, c: char): (n: nat)
    ensures n <= |s| && c !in s[..n]
    ensures n < |s| ==> s[n] == c
  {
    if s == "" || s[0] == c then 0
    else
      var n := 1 + IndexOf(s[1..], c);
      assert s[..n] == [s[0]] + s[1..][..n - 1];
      n
  }

  lemma IndexOfSplit(u: string, c: char, v: string)
    requires c !in u
    ensures IndexOf(u + [c] + v, c) == |u|
  {
    var s := u + [c] + v;
    assert forall i | 0 <= i < |u| :: s[i] == u[i] && u[i] in u;
    assert s[|u|] == c;
    assert forall n | |u| < n <= |s| :: s[..n][|u|] == c;
  }

  lemma IndexOfAbsent(s: string, c: char)
    requires c !in s
    ensures IndexOf(s, c) == |s|
  {
    assert forall i | 0 <= i < |s| :: s[i] in s;
  }

  /** `parse_d_state`: what it leaves in `*p_open` and `*p_locked`. */
  function ParseDState(token: string, open: bool, locked: bool): (bool, bool) {
    var eq := IndexOf(token, '=');
    if eq == |token| then (open, locked)
    else
      var states := token[eq + 1..];
      var comma := IndexOf(states, ',');
      var first := Clip(states[..comma], 31);
      var second := if comma == |states| then "" else Clip(states[comma + 1..], 31);
      var open' := if first == "OPEN" then true else if first == "CLOSED" then false else open;
      var locked' :=
        if second == "LOCKED" then true
        else if second == "UNLOCKED" then false
        else if second != "" then locked
        else if first == "LOCKED" then true
        else if first == "UNLOCKED" then false
        else locked;
      (open', locked')
  }

  /** On `<channel>=<first>,<second>`, each half is read on its own. */
  lemma ParseTwoStates(channel: string, first: string, second: string, open: bool, locked: bool)
    requires '=' !in channel && ',' !in first && |first| <= 31 && 0 < |second| <= 31
    ensures ParseDState(channel + "=" + first + "," + second, open, locked) ==
      (if first == "OPEN" then true else if first == "CLOSED" then false else open,
       if second == "LOCKED" then true else if second == "UNLOCKED" then false else locked)
  {
    var states := first + "," + second;
    var token := channel + "=" + first + "," + second;
    assert token == channel + ['='] + states;
    IndexOfSplit(channel, '=', states);
    assert token[|channel| + 1..] == states;
    assert states == first + [','] + second;
    IndexOfSplit(first, ',', second);
    assert states[..|first|] == first && states[|first| + 1..] == second;
  }

  /** Without a comma the one word is read as either kind of state; without `=` nothing is. */
  lemma ParseOneState(channel: string, first: string, open: bool, locked: bool)
    requires '=' !in channel && ',' !in first && |first| <= 31
    ensures ParseDState(channel + "=" + first, open, locked) ==
      (if first == "OPEN" then true else if first == "CLOSED" then false else open,
       if first == "LOCKED" then true else if first == "UNLOCKED" then false else locked)
    ensures ParseDState(channel, open, locked) == (open, locked)
  {
    var token := channel + "=" + first;
    assert token == channel + ['='] + first;
    IndexOfSplit(channel, '=', first);
    assert token[|channel| + 1..] == first;
    IndexOfAbsent(first, ',');
    assert first[..|first|] == first;
    IndexOfAbsent(channel, '=');
  }

  /** A printed state token overwrites whatever the hub held with exactly the state printed. */
  lemma {:induction false} StateTokenRoundTrip(channel: string, open: bool, locked: bool, oldOpen: bool, oldLocked: bool)
    requires '=' !in channel
    ensures ParseDState(StateToken(channel, open, locked), oldOpen, oldLocked) == (open, locked)
  {
    ParseTwoStates(channel, OpenText(open), LockText(locked), oldOpen, oldLocked);
  }

  // ---------- Receive buffers ----------

  /** The C string a 256-byte receive buffer holds: the first 255 characters, up to the first NUL. */
  function Received(payload: string): string {
    var s := Clip(payload, 255);
    s[..IndexOf(s, '\0')]
  }

  lemma ReceivedWhole(payload: string)
    requires |payload| <= 255 && '\0' !in payload
    ensures Received(payload) == payload
  {
    assert forall i | 0 <= i < |payload| :: payload[i] in payload;
  }
}
