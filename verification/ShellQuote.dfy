// shellEscape of backend/internal/vpn/wireguard.go against a reader of shell
// words after sections 2.2 (quoting) and 2.3 (token recognition) of the
// POSIX.1-2017 Shell Command Language.
module ShellQuote {

  // ---- The printer ----

  /** strings.ReplaceAll(s, "'", "'\\''") */
  function ReplaceQuotes(s: string): string {
    if s == "" then ""
    else (if s[0] == '\'' then "'\\''" else [s[0]]) + ReplaceQuotes(s[1..])
  }

  function ShellEscape(s: string): string {
    "'" + ReplaceQuotes(s) + "'"
  }

  /** The command line that ensureKeys hands to sh -c. */
  function KeygenCommand(privPath: string, pubPath: string): string {
    "umask 077; wg genkey | tee " + ShellEscape(privPath) + " | wg pubkey > " + ShellEscape(pubPath)
  }

  // ---- The reader ----

  /** A word with what follows it; Unfinished inside an open quote, Special at a
      character whose expansion this reader does not model. */
  datatype Scan = Scan(word: string, rest: string) | Unfinished | Special

  predicate IsBlank(c: char) {
    c == ' ' || c == '\t'
  }

  predicate IsOperator(c: char) {
    c in {';', '&', '|', '<', '>', '(', ')', '\n'}
  }

  predicate EndsWord(s: string) {
    s == "" || IsBlank(s[0]) || IsOperator(s[0])
  }

  /** Section 2.2.2: everything up to the next single quote is literal. */
  function ReadQuoted(s: string, acc: string): (r: Scan)
    ensures r.Scan? ==> |r.rest| < |s|
  {
    if s == "" then Unfinished
    else if s[0] == '\'' then Scan(acc, s[1..])
    else ReadQuoted(s[1..], acc + [s[0]])
  }

  /** A word in unquoted context, section 2.2.1 for the backslash: it makes the next
      character literal, and with a newline it vanishes. */
  function ReadWord(s: string, acc: string): (r: Scan)
    ensures r.Scan? ==> |r.rest| <= |s|
    decreases |s|
  {
    if EndsWord(s) then Scan(acc, s)
    else if s[0] == '\'' then
      match ReadQuoted(s[1..], acc)
      case Scan(word, rest) => ReadWord(rest, word)
      case other => other
    else if s[0] == '\\' then
      if |s| == 1 then Scan(acc + "\\", "")
      else if s[1] == '\n' then ReadWord(s[2..], acc)
      else ReadWord(s[2..], acc + [s[1]])
    else if s[0] in {'"', '$', '`'} then Special
    else ReadWord(s[1..], acc + [s[0]])
  }

  datatype Token = Word(text: string) | Operator(text: string) | Unread

  const DOUBLE_OPERATORS: set<string> := {"&&", "||", ";;", "<<", ">>", "<&", ">&", "<>", ">|"}

  /** Section 2.3: blanks separate, operators are read longest first. A comment or a
      word this reader does not model ends the reading with Unread. */
  function Tokens(s: string): seq<Token>
    decreases |s|
  {
    if s == "" then []
    else if IsBlank(s[0]) then Tokens(s[1..])
    else if IsOperator(s[0]) then
      if |s| >= 2 && s[..2] in DOUBLE_OPERATORS then [Operator(s[..2])] + Tokens(s[2..])
      else [Operator(s[..1])] + Tokens(s[1..])
    else if s[0] == '#' then [Unread]
    else
      match ReadWord(s, "")
      case Scan(word, rest) => if |rest| < |s| then [Word(word)] + Tokens(rest) else [Unread]
      case _ => [Unread]
  }

  // ---- The reader undoes the printer ----

  /** Reading on from inside a single quote. */
  function InQuote(s: string, acc: string): Scan {
    match ReadQuoted(s, acc)
    case Scan(word, rest) => ReadWord(rest, word)
    case other => other
  }

  /** The printer's rendering of one single quote: out of the quotes, an escaped quote, and
      back in. */
  lemma QuoteReadsBack(body: string, acc: string)
    ensures InQuote("'\\''" + body, acc) == InQuote(body, acc + "'")
  {
    var text := "'\\''" + body;
    assert text[1..] == "\\''" + body;
    assert text[1..][2..] == "'" + body;
    assert ("'" + body)[1..] == body;
    assert ReadWord("'" + body, acc + "'") == InQuote(body, acc + "'");
  }

  lemma {:induction false} QuotedBodyReadsBack(s: string, acc: string, tail: string)
    requires EndsWord(tail)
    ensures InQuote(ReplaceQuotes(s) + "'" + tail, acc) == Scan(acc + s, tail)
  {
    var text := ReplaceQuotes(s) + "'" + tail;
    if s == "" {
      assert text[1..] == tail;
      assert acc + s == acc;
    } else {
      var body := ReplaceQuotes(s[1..]) + "'" + tail;
      QuotedBodyReadsBack(s[1..], acc + [s[0]], tail);
      assert acc + [s[0]] + s[1..] == acc + s;
      if s[0] == '\'' {
        assert text == "'\\''" + body;
        QuoteReadsBack(body, acc);
      } else {
        assert text == [s[0]] + body;
        assert text[1..] == body;
      }
    }
  }

  /** For every string, the shell reads shellEscape(s) as exactly one word equal to s
      and leaves everything from the next separator on unread. */
  lemma ShellEscapeRoundTrip(s: string, tail: string)
    requires EndsWord(tail)
    ensures ReadWord(ShellEscape(s) + tail, "") == Scan(s, tail)
  {
    var text := ShellEscape(s) + tail;
    QuotedBodyReadsBack(s, "", tail);
    assert text[1..] == ReplaceQuotes(s) + "'" + tail;
    assert "" + s == s;
  }

  /** Hence two different strings are never printed alike. */
  lemma ShellEscapeInjective(s: string, s': string)
    ensures ShellEscape(s) == ShellEscape(s') <==> s == s'
  {
    ShellEscapeRoundTrip(s, "");
    ShellEscapeRoundTrip(s', "");
    assert ShellEscape(s) + "" == ShellEscape(s) && ShellEscape(s') + "" == ShellEscape(s');
  }

  // ---- The whole command line ----

  predicate IsPlain(c: char) {
    !IsBlank(c) && !IsOperator(c) && c !in {'\'', '\\', '"', '$', '`', '#'}
  }

  lemma {:induction false} PlainWordReads(w: string, acc: string, tail: string)
    requires EndsWord(tail) && forall c | c in w :: IsPlain(c)
    ensures ReadWord(w + tail, acc) == Scan(acc + w, tail)
  {
    if w == "" {
      assert w + tail == tail && acc + w == acc;
    } else {
      assert w[0] in w && (w + tail)[0] == w[0];
      assert (w + tail)[1..] == w[1..] + tail;
      PlainWordReads(w[1..], acc + [w[0]], tail);
      assert acc + [w[0]] + w[1..] == acc + w;
    }
  }

  lemma PlainToken(w: string, tail: string)
    requires EndsWord(tail) && w != "" && forall c | c in w :: IsPlain(c)
    ensures Tokens(w + tail) == [Word(w)] + Tokens(tail)
  {
    PlainWordReads(w, "", tail);
    assert w[0] in w && (w + tail)[0] == w[0] && "" + w == w;
  }

  lemma BlankToken(tail: string)
    ensures Tokens(" " + tail) == Tokens(tail)
  {
    assert (" " + tail)[1..] == tail;
  }

  /** An operator character followed by a blank. */
  lemma OperatorToken(op: string, tail: string)
    requires op in {";", "|", ">"}
    ensures Tokens(op + " " + tail) == [Operator(op)] + Tokens(tail)
  {
    var text := op + " " + tail;
    assert text[0] == op[0] && text[1] == ' ' && text[..1] == op;
    assert text[..2][1] == ' ';
    assert text[1..] == " " + tail;
    BlankToken(tail);
  }

  lemma QuotedToken(s: string, tail: string)
    requires EndsWord(tail)
    ensures Tokens(ShellEscape(s) + tail) == [Word(s)] + Tokens(tail)
  {
    ShellEscapeRoundTrip(s, tail);
    assert (ShellEscape(s) + tail)[0] == '\'';
  }

  /** A plain word, a blank, and more. */
  lemma PlainThenMore(w: string, tail: string)
    requires w != "" && forall c | c in w :: IsPlain(c)
    ensures Tokens(w + " " + tail) == [Word(w)] + Tokens(tail)
  {
    assert w + " " + tail == w + (" " + tail);
    PlainToken(w, " " + tail);
    BlankToken(tail);
  }

  lemma PublicHalf(pub: string)
    ensures Tokens("wg pubkey > " + ShellEscape(pub)) == [Word("wg"), Word("pubkey"), Operator(">"), Word(pub)]
  {
    hide ShellEscape, ReadWord;
    var quoted := ShellEscape(pub);
    assert Tokens("") == [] && quoted + "" == quoted;
    hide Tokens;
    QuotedToken(pub, "");
    OperatorToken(">", quoted);
    var t1 := ">" + " " + quoted;
    PlainThenMore("pubkey", t1);
    var t2 := "pubkey" + " " + t1;
    PlainThenMore("wg", t2);
    assert "wg" + " " + t2 == "wg pubkey > " + quoted;
  }

  lemma PrivateHalf(priv: string, tail: string)
    ensures Tokens(ShellEscape(priv) + " | " + tail) == [Word(priv), Operator("|")] + Tokens(tail)
  {
    hide ShellEscape, ReadWord, Tokens;
    OperatorToken("|", tail);
    var t1 := "|" + " " + tail;
    BlankToken(t1);
    QuotedToken(priv, " " + t1);
    assert ShellEscape(priv) + (" " + t1) == ShellEscape(priv) + " | " + tail;
  }

  lemma Generator(tail: string)
    ensures Tokens("wg genkey | tee " + tail)
         == [Word("wg"), Word("genkey"), Operator("|"), Word("tee")] + Tokens(tail)
  {
    hide ReadWord, Tokens;
    PlainThenMore("tee", tail);
    var t1 := "tee" + " " + tail;
    OperatorToken("|", t1);
    var t2 := "|" + " " + t1;
    PlainThenMore("genkey", t2);
    var t3 := "genkey" + " " + t2;
    PlainThenMore("wg", t3);
    assert "wg" + " " + t3 == "wg genkey | tee " + tail;
  }

  lemma Umask(tail: string)
    ensures Tokens("umask 077; " + tail) == [Word("umask"), Word("077"), Operator(";")] + Tokens(tail)
  {
    hide ReadWord, Tokens;
    OperatorToken(";", tail);
    var t1 := ";" + " " + tail;
    PlainToken("077", t1);
    var t2 := "077" + t1;
    PlainThenMore("umask", t2);
    assert "umask" + " " + t2 == "umask 077; " + tail;
  }

  /** Whatever the two key paths are, the shell sees the intended pipeline with each
      path as a single word. */
  lemma KeygenCommandParses(privPath: string, pubPath: string)
    ensures Tokens(KeygenCommand(privPath, pubPath)) ==
            [Word("umask"), Word("077"), Operator(";"), Word("wg"), Word("genkey"), Operator("|"), Word("tee"),
             Word(privPath), Operator("|"), Word("wg"), Word("pubkey"), Operator(">"), Word(pubPath)]
  {
    hide ReadWord, Tokens, ShellEscape;
    PublicHalf(pubPath);
    var t1 := "wg pubkey > " + ShellEscape(pubPath);
    PrivateHalf(privPath, t1);
    var t2 := ShellEscape(privPath) + " | " + t1;
    Generator(t2);
    var t3 := "wg genkey | tee " + t2;
    Umask(t3);
    assert "umask 077; " + t3 == KeygenCommand(privPath, pubPath);
  }
}
