/**
 * Quoting an argument for the shell (apps/api/src/review-request.ts:33-35) against a reader of
 * words: token recognition and quoting of the Shell Command Language, sections 2.2 and 2.3 of
 * POSIX.1-2017.
 */
module ShellQuote {

  // ---- The printer ----

  /** Every single quote ends the quoted part, is escaped on its own, and starts a new one. */
  function Escaped(s: string): string {
    if s == "" then ""
    else (if s[0] == '\'' then "'\\''" else [s[0]]) + Escaped(s[1..])
  }

  function ShellQuote(s: string): string {
    "'" + Escaped(s) + "'"
  }

  // ---- The reader ----

  predicate IsBlank(c: char) {
    c == ' ' || c == '\t'
  }

  /** Ends a word when not quoted: a blank, a newline or the start of an operator. */
  predicate EndsWord(c: char) {
    IsBlank(c) || c == '\n' || c in {'|', '&', ';', '<', '>', '(', ')'}
  }

  /** Would be expanded, matched or substituted when not quoted (section 2.2). */
  predicate IsActive(c: char) {
    c in {'$', '`', '*', '?', '[', '#', '~', '=', '%'}
  }

  /** A word after quote removal and the text behind it, or why there is none. */
  datatype Reading = Word(value: string, rest: string) | Unterminated | NeedsExpansion

  /** Inside single quotes (section 2.2.2): everything up to the next one stands for itself. */
  function ReadSingleQuoted(text: string, value: string): (r: Reading)
    ensures r.Word? ==> |r.rest| < |text|
    decreases |text|
  {
    if text == "" then Unterminated
    else if text[0] == '\'' then Word(value, text[1..])
    else ReadSingleQuoted(text[1..], value + [text[0]])
  }

  /** Inside double quotes (section 2.2.3): the value so far and the text from here on. */
  function ReadDoubleQuoted(text: string, value: string): (r: Reading)
    ensures r.Word? ==> |r.rest| < |text|
    decreases |text|
  {
    if text == "" then Unterminated
    else if text[0] == '"' then Word(value, text[1..])
    else if text[0] == '$' || text[0] == '`' then NeedsExpansion
    else if text[0] == '\\' then
      if |text| == 1 then Unterminated
      else if text[1] == '\n' then ReadDoubleQuoted(text[2..], value)
      else if text[1] in {'$', '`', '"', '\\'} then ReadDoubleQuoted(text[2..], value + [text[1]])
      else ReadDoubleQuoted(text[2..], value + text[..2])
    else ReadDoubleQuoted(text[1..], value + [text[0]])
  }

  /** The rest of a word of which `value` has been read. */
  function ReadWord(text: string, value: string): (r: Reading)
    ensures r.Word? ==> |r.rest| <= |text| && (!Follows(text) ==> |r.rest| < |text|)
    decreases |text|
  {
    if Follows(text) then Word(value, text)
    else if text[0] == '\'' then
      var quoted := ReadSingleQuoted(text[1..], value);
      if quoted.Word? then ReadWord(quoted.rest, quoted.value) else quoted
    else if text[0] == '"' then
      var quoted := ReadDoubleQuoted(text[1..], value);
      if quoted.Word? then ReadWord(quoted.rest, quoted.value) else quoted
    else if text[0] == '\\' then
      if |text| == 1 then Unterminated
      else if text[1] == '\n' then ReadWord(text[2..], value)
      else ReadWord(text[2..], value + [text[1]])
    else if IsActive(text[0]) then NeedsExpansion
    else ReadWord(text[1..], value + [text[0]])
  }

  /** Text behind a word: nothing, or something that ends it. */
  predicate Follows(tail: string) {
    tail == "" || EndsWord(tail[0])
  }

  // ---- The round trip ----

  /** What stands in the command line from inside the opening quote of `s` on. */
  function EscapedThen(s: string, tail: string): string {
    if s == "" then ['\''] + tail
    else if s[0] == '\'' then ['\'', '\\', '\'', '\''] + EscapedThen(s[1..], tail)
    else [s[0]] + EscapedThen(s[1..], tail)
  }

  lemma {:induction false} EscapedInContext(s: string, tail: string)
    ensures Escaped(s) + "'" + tail == EscapedThen(s, tail)
  {
    if s != "" {
      EscapedInContext(s[1..], tail);
      Associate(if s[0] == '\'' then "'\\''" else [s[0]], Escaped(s[1..]), "'", tail);
    }
  }

  lemma Associate(a: string, b: string, c: string, d: string)
    ensures (a + b) + c + d == a + (b + c + d)
  {
  }

  /** Reading on inside single quotes, and then the rest of the word. */
  function ReadQuotedWord(text: string, value: string): Reading {
    var quoted := ReadSingleQuoted(text, value);
    if quoted.Word? then ReadWord(quoted.rest, quoted.value) else quoted
  }

  lemma ReadsPlainChar(c: char, text: string, value: string)
    requires c != '\''
    ensures ReadQuotedWord([c] + text, value) == ReadQuotedWord(text, value + [c])
  {
    assert ([c] + text)[1..] == text;
  }

  lemma ReadsEscapedQuote(text: string, value: string)
    ensures ReadQuotedWord(['\'', '\\', '\'', '\''] + text, value) == ReadQuotedWord(text, value + ['\''])
  {
    var inside := ['\'', '\\', '\'', '\''] + text;
    assert ReadSingleQuoted(inside, value) == Word(value, inside[1..]);
    assert inside[1..][2..] == ['\''] + text;
    assert ReadWord(inside[1..], value) == ReadWord(['\''] + text, value + ['\'']);
    assert (['\''] + text)[1..] == text;
  }

  lemma {:induction false} ReadsEscaped(s: string, tail: string, value: string)
    ensures ReadQuotedWord(EscapedThen(s, tail), value) == ReadWord(tail, value + s)
    decreases |s|
  {
    if s == "" {
      assert (['\''] + tail)[1..] == tail && value + s == value;
    } else {
      if s[0] == '\'' {
        ReadsEscapedQuote(EscapedThen(s[1..], tail), value);
      } else {
        ReadsPlainChar(s[0], EscapedThen(s[1..], tail), value);
      }
      ReadsEscaped(s[1..], tail, value + [s[0]]);
      assert value + [s[0]] + s[1..] == value + s;
    }
  }

  /** Whatever the argument holds, the shell reads it back as one word, and goes on behind it. */
  lemma QuotedReadsBack(s: string, tail: string)
    requires Follows(tail)
    ensures ReadWord(ShellQuote(s) + tail, "") == Word(s, tail)
  {
    EscapedInContext(s, tail);
    var text := ShellQuote(s) + tail;
    assert text[0] == '\'' && text[1..] == EscapedThen(s, tail);
    ReadsEscaped(s, tail, "");
    assert "" + s == s;
  }

  /** Different arguments are quoted differently. */
  lemma QuotingIsInjective(s: string, t: string)
    requires ShellQuote(s) == ShellQuote(t)
    ensures s == t
  {
    QuotedReadsBack(s, "");
    QuotedReadsBack(t, "");
    assert ShellQuote(s) + "" == ShellQuote(s) && ShellQuote(t) + "" == ShellQuote(t);
  }

  // ---- Whole argument lists ----

  datatype Words = Words(values: seq<string>, rest: string) | NoWords

  function SkipBlanks(text: string): (r: string)
    ensures |r| <= |text|
    ensures r == "" || !IsBlank(r[0])
  {
    if text != "" && IsBlank(text[0]) then SkipBlanks(text[1..]) else text
  }

  /** The words up to a newline, an operator or the end. */
  function ReadWords(text: string): Words
    decreases |text|
  {
    var start := SkipBlanks(text);
    if Follows(start) then Words([], start)
    else
      var first := ReadWord(start, "");
      if !first.Word? then NoWords
      else
        var others := ReadWords(first.rest);
        if others.NoWords? then NoWords else Words([first.value] + others.values, others.rest)
  }

  function QuotedArgs(args: seq<string>): string {
    if args == [] then "" else " " + ShellQuote(args[0]) + QuotedArgs(args[1..])
  }

  /** One blank and a quoted argument in front of other text. */
  lemma OneMoreWord(s: string, behind: string)
    requires Follows(behind)
    ensures ReadWords(" " + ShellQuote(s) + behind) ==
      var others := ReadWords(behind);
      if others.NoWords? then NoWords else Words([s] + others.values, others.rest)
  {
    var text, start := " " + ShellQuote(s) + behind, ShellQuote(s) + behind;
    assert text[0] == ' ' && text[1..] == start;
    assert start[0] == '\'';
    assert SkipBlanks(start) == start;
    assert SkipBlanks(text) == start;
    QuotedReadsBack(s, behind);
  }

  lemma Append(a: string, b: string, c: string)
    ensures (a + b) + c == a + (b + c)
  {
  }

  /** A command line of quoted arguments is split back into exactly these arguments. */
  lemma {:induction false} ArgumentListReadsBack(args: seq<string>, tail: string)
    requires tail == "" || (EndsWord(tail[0]) && !IsBlank(tail[0]))
    ensures ReadWords(QuotedArgs(args) + tail) == Words(args, tail)
  {
    if args == [] {
      assert QuotedArgs(args) + tail == tail;
    } else {
      var behind := QuotedArgs(args[1..]) + tail;
      Append(" " + ShellQuote(args[0]), QuotedArgs(args[1..]), tail);
      OneMoreWord(args[0], behind);
      ArgumentListReadsBack(args[1..], tail);
      assert [args[0]] + args[1..] == args;
    }
  }
}
