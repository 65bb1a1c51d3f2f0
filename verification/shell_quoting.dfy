/**
The suggested `set-server` command (`apps/cli/src/config.rs`), against the word readers of
the shells it is meant for: a POSIX shell (IEEE Std 1003.1, Shell Command Language, sections
2.2.1 and 2.2.2) and PowerShell.

A reader gives nothing when the text is not one plain command: an unquoted character with a
meaning of its own, an open quote, or a NUL, which no argument can carry.
*/
module ShellQuoting {
  import opened Common

  datatype Shell = Posix | PowerShell

  const NUL := '\0'

  // ------------------------------------------------------------------- printing

  predicate IsPowerShellQuote(c: char) {
    c == '\'' || c == '\U{2018}' || c == '\U{2019}' || c == '\U{201A}' || c == '\U{201B}'
  }

  /** What one character becomes between the quotes. */
  function Escaped(shell: Shell, c: char): string {
    match shell
    case Posix => if c == '\'' then "'\\''" else [c]
    case PowerShell => if IsPowerShellQuote(c) then [c, c] else [c]
  }

  function EscapedAll(shell: Shell, value: string): string {
    if value == [] then [] else Escaped(shell, value[0]) + EscapedAll(shell, value[1..])
  }

  function Quote(shell: Shell, value: string): string { "'" + EscapedAll(shell, value) + "'" }

  function Command(shell: Shell, url: string, origin: string): string {
    "wsmp config set-server " + Quote(shell, url) + " --public-origin " + Quote(shell, origin)
  }

  lemma {:induction false} EscapedMore(shell: Shell, value: string, c: char)
    ensures EscapedAll(shell, value + [c]) == EscapedAll(shell, value) + Escaped(shell, c)
    decreases |value|
  {
    if value == [] {
      assert (value + [c])[1..] == [];
    } else {
      assert (value + [c])[1..] == value[1..] + [c];
      EscapedMore(shell, value[1..], c);
    }
  }

  method QuoteFor(shell: Shell, value: string) returns (quoted: string)
    ensures quoted == Quote(shell, value)
  {
    quoted := "'";
    for k := 0 to |value|
      invariant quoted == "'" + EscapedAll(shell, value[..k])
    {
      assert value[..k + 1] == value[..k] + [value[k]];
      EscapedMore(shell, value[..k], value[k]);
      if shell.PowerShell? {
        if IsPowerShellQuote(value[k]) {
          quoted := quoted + [value[k]];
        }
        quoted := quoted + [value[k]];
      } else if value[k] == '\'' {
        quoted := quoted + "'\\''";
      } else {
        quoted := quoted + [value[k]];
      }
    }
    assert value[..|value|] == value;
    quoted := quoted + "'";
  }

  // -------------------------------------------------------------------- reading

  predicate IsBlank(c: char) { c == ' ' || c == '\t' }

  /** Has no meaning to the shell when unquoted. */
  predicate IsPlain(c: char) {
    'a' <= c <= 'z' || 'A' <= c <= 'Z' || '0' <= c <= '9' || c == '-' || c == '_' || c == '.' || c == '/' || c == ':'
  }

  datatype Mode = Between | InWord(text: string) | InQuotes(text: string) | Closed(text: string)

  /** What PowerShell reads as a single quote: the ASCII one and the four typographic ones. */
  const SINGLE_QUOTES: set<char> := {'\'', '\U{2018}', '\U{2019}', '\U{201A}', '\U{201B}'}

  predicate OpensQuotes(shell: Shell, c: char) {
    match shell
    case Posix => c == '\''
    case PowerShell => c in SINGLE_QUOTES
  }

  /** The words of a command line, read character by character. */
  function Words(shell: Shell, s: string, mode: Mode, words: seq<string>): Option<seq<string>>
    decreases |s|
  {
    if s == [] then
      match mode
      case Between => Some(words)
      case InWord(text) => Some(words + [text])
      case Closed(text) => Some(words + [text])
      case InQuotes(_) => None
    else
      var c, rest := s[0], s[1..];
      match mode
      case InQuotes(text) =>
        if c == NUL then None
        else if !OpensQuotes(shell, c) then Words(shell, rest, InQuotes(text + [c]), words)
        else if shell.Posix? then Words(shell, rest, InWord(text), words)
        else if rest != [] && rest[0] in SINGLE_QUOTES then Words(shell, rest[1..], InQuotes(text + [rest[0]]), words)
        else Words(shell, rest, Closed(text), words)
      case Closed(text) => if IsBlank(c) then Words(shell, rest, Between, words + [text]) else None
      case Between =>
        if IsBlank(c) then Words(shell, rest, Between, words)
        else if OpensQuotes(shell, c) then Words(shell, rest, InQuotes(""), words)
        else if c == '\\' && shell.Posix? then Backslash(rest, "", words)
        else if IsPlain(c) then Words(shell, rest, InWord([c]), words)
        else None
      case InWord(text) =>
        if IsBlank(c) then Words(shell, rest, Between, words + [text])
        else if OpensQuotes(shell, c) then if shell.Posix? then Words(shell, rest, InQuotes(text), words) else None
        else if c == '\\' && shell.Posix? then Backslash(rest, text, words)
        else if IsPlain(c) then Words(shell, rest, InWord(text + [c]), words)
        else None
  }

  /** Section 2.2.1: the next character is literal; before a newline the two are removed. */
  function Backslash(rest: string, text: string, words: seq<string>): Option<seq<string>>
    decreases |rest|, 0
  {
    if rest == [] || rest[0] == NUL then None
    else if rest[0] == '\n' then Words(Posix, rest[1..], if text == "" then Between else InWord(text), words)
    else Words(Posix, rest[1..], InWord(text + [rest[0]]), words)
  }

  // ------------------------------------------------------------------ round trip

  predicate HasNul(s: string) { NUL in s }

  /** Where a word stands just after its closing quote. */
  function AfterQuote(shell: Shell, text: string): Mode { if shell.Posix? then InWord(text) else Closed(text) }

  lemma {:induction false} ReadsEscaped(shell: Shell, value: string, tail: string, text: string, words: seq<string>)
    requires !HasNul(value)
    ensures Words(shell, EscapedAll(shell, value) + tail, InQuotes(text), words)
         == Words(shell, tail, InQuotes(text + value), words)
    decreases |value|
  {
    if value == [] {
      assert EscapedAll(shell, value) + tail == tail && text + value == text;
    } else {
      var c, rest := value[0], EscapedAll(shell, value[1..]) + tail;
      assert EscapedAll(shell, value) + tail == Escaped(shell, c) + rest;
      ReadsOne(shell, c, rest, text, words);
      ReadsEscaped(shell, value[1..], tail, text + [c], words);
      assert text + [c] + value[1..] == text + value;
    }
  }

  lemma ReadsOne(shell: Shell, c: char, rest: string, text: string, words: seq<string>)
    requires c != NUL
    ensures Words(shell, Escaped(shell, c) + rest, InQuotes(text), words)
         == Words(shell, rest, InQuotes(text + [c]), words)
  {
    var s := Escaped(shell, c) + rest;
    if shell.Posix? && c == '\'' {
      assert s[1..] == "\\''" + rest && s[1..][1..] == "''" + rest;
      assert s[1..][1..][1..] == "'" + rest && s[1..][1..][1..][1..] == rest;
      assert Words(shell, s[1..], InWord(text), words) == Backslash(s[1..][1..], text, words);
      assert Backslash(s[1..][1..], text, words) == Words(shell, "'" + rest, InWord(text + [c]), words);
    } else if shell.PowerShell? && IsPowerShellQuote(c) {
      assert s[1..] == [c] + rest && s[1..][1..] == rest;
    } else {
      assert s[1..] == rest;
    }
  }

  /** A quoted argument between blanks reads back as itself, and the NULs are what stops it. */
  lemma ReadsQuoted(shell: Shell, value: string, tail: string, words: seq<string>)
    requires !HasNul(value) && (tail == [] || IsBlank(tail[0]))
    ensures Words(shell, Quote(shell, value) + tail, Between, words)
         == Words(shell, tail, AfterQuote(shell, value), words)
  {
    var s := Quote(shell, value) + tail;
    assert s[1..] == EscapedAll(shell, value) + ("'" + tail);
    ReadsEscaped(shell, value, "'" + tail, "", words);
    assert "" + value == value;
    assert ("'" + tail)[1..] == tail;
  }

  lemma {:induction false} StopsAtNul(shell: Shell, value: string, tail: string, text: string, words: seq<string>)
    requires HasNul(value)
    ensures Words(shell, EscapedAll(shell, value) + tail, InQuotes(text), words) == None
    decreases |value|
  {
    var c, rest := value[0], EscapedAll(shell, value[1..]) + tail;
    assert EscapedAll(shell, value) + tail == Escaped(shell, c) + rest;
    if c != NUL {
      assert HasNul(value[1..]);
      ReadsOne(shell, c, rest, text, words);
      StopsAtNul(shell, value[1..], tail, text + [c], words);
    }
  }

  /** A word of plain characters followed by a blank. */
  lemma {:induction false} ReadsPlain(shell: Shell, word: string, tail: string, text: string, words: seq<string>)
    requires forall k :: 0 <= k < |word| ==> IsPlain(word[k])
    ensures Words(shell, word + " " + tail, InWord(text), words) == Words(shell, tail, Between, words + [text + word])
    decreases |word|
  {
    var s := word + " " + tail;
    if word == [] {
      assert s[1..] == tail && text + word == text;
    } else {
      assert s[1..] == word[1..] + " " + tail;
      ReadsPlain(shell, word[1..], tail, text + [word[0]], words);
      assert text + [word[0]] + word[1..] == text + word;
    }
  }

  lemma ReadsWord(shell: Shell, word: string, tail: string, words: seq<string>)
    requires word != "" && forall k :: 0 <= k < |word| ==> IsPlain(word[k])
    ensures Words(shell, word + " " + tail, Between, words) == Words(shell, tail, Between, words + [word])
  {
    var s := word + " " + tail;
    assert s[1..] == word[1..] + " " + tail;
    ReadsPlain(shell, word[1..], tail, [word[0]], words);
    assert [word[0]] + word[1..] == word;
  }

  /** After the first three words. */
  lemma ReadsStart(shell: Shell, tail: string)
    ensures Words(shell, "wsmp config set-server " + tail, Between, [])
         == Words(shell, tail, Between, ["wsmp", "config", "set-server"])
  {
    var third := "set-server" + " " + tail;
    var second := "config" + " " + third;
    assert "wsmp config set-server " + tail == "wsmp" + " " + second;
    ReadsWord(shell, "wsmp", second, []);
    ReadsWord(shell, "config", third, ["wsmp"]);
    ReadsWord(shell, "set-server", tail, ["wsmp", "config"]);
    assert [] + ["wsmp"] == ["wsmp"] && ["wsmp"] + ["config"] == ["wsmp", "config"];
    assert ["wsmp", "config"] + ["set-server"] == ["wsmp", "config", "set-server"];
  }

  lemma ReadsMiddle(shell: Shell, url: string, tail: string, words: seq<string>)
    requires !HasNul(url)
    ensures Words(shell, Quote(shell, url) + (" --public-origin " + tail), Between, words)
         == Words(shell, tail, Between, words + [url, "--public-origin"])
  {
    var rest := "--public-origin" + " " + tail;
    assert " --public-origin " + tail == " " + rest && (" " + rest)[1..] == rest;
    ReadsQuoted(shell, url, " " + rest, words);
    ReadsWord(shell, "--public-origin", tail, words + [url]);
    assert words + [url] + ["--public-origin"] == words + [url, "--public-origin"];
  }

  /**
  The command reads back as exactly six words, with both arguments unchanged, if and only if
  neither holds a NUL.
  */
  lemma ReadsBack(shell: Shell, url: string, origin: string)
    ensures Words(shell, Command(shell, url, origin), Between, [])
         == if HasNul(url) || HasNul(origin) then None
            else Some(["wsmp", "config", "set-server", url, "--public-origin", origin])
  {
    var last := Quote(shell, origin);
    var tail := Quote(shell, url) + (" --public-origin " + last);
    assert Command(shell, url, origin) == "wsmp config set-server " + tail;
    ReadsStart(shell, tail);
    var start := ["wsmp", "config", "set-server"];
    if HasNul(url) {
      StopsInQuotes(shell, url, " --public-origin " + last, start);
    } else {
      ReadsMiddle(shell, url, last, start);
      var five := start + [url, "--public-origin"];
      assert last + "" == last;
      if HasNul(origin) {
        StopsInQuotes(shell, origin, "", five);
      } else {
        ReadsQuoted(shell, origin, "", five);
        assert five + [origin] == ["wsmp", "config", "set-server", url, "--public-origin", origin];
      }
    }
  }

  lemma StopsInQuotes(shell: Shell, value: string, tail: string, words: seq<string>)
    requires HasNul(value)
    ensures Words(shell, Quote(shell, value) + tail, Between, words) == None
  {
    assert (Quote(shell, value) + tail)[1..] == EscapedAll(shell, value) + ("'" + tail);
    StopsAtNul(shell, value, "'" + tail, "", words);
  }

  /** `set_server_command_for`; `normalize` gives an origin's canonical form, if it has one. */
  method SetServerCommandFor(shell: Shell, url: string, origin: string, normalize: string -> Option<string>)
    returns (command: Option<string>)
    ensures command.Some? <==> normalize(origin) == Some(origin)
    ensures command.Some? && !HasNul(url) && !HasNul(origin) ==>
              Words(shell, command.value, Between, [])
              == Some(["wsmp", "config", "set-server", url, "--public-origin", origin])
  {
    var canonical := normalize(origin);
    if canonical != Some(origin) {
      return None;
    }
    var first := QuoteFor(shell, url);
    var second := QuoteFor(shell, canonical.value);
    command := Some("wsmp config set-server " + first + " --public-origin " + second);
    ReadsBack(shell, url, origin);
  }
}
