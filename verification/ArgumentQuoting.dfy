/**
 The command line a consent prompt shows, and the shell's reading of it.

 `QuoteArgument` renders one argument. `Lex` reads a line back by the quoting and token rules of
 sections 2.2.1, 2.2.2 and 2.3 of the POSIX Shell Command Language; it stops at a character those
 rules would make an operator, an expansion or a comment. Reading back what was rendered gives the
 same arguments, so no two commands share a line.
 */
module ArgumentQuoting {
  import opened Prelude

  // ----- Rendering -----

  predicate IsSafe(c: char) {
    || 'a' <= c <= 'z' || 'A' <= c <= 'Z' || '0' <= c <= '9'
    || c == '_' || c == '@' || c == '%' || c == '+' || c == '=' || c == ':'
    || c == ',' || c == '.' || c == '/' || c == '-'
  }

  /** Each single quote closes the quotation, stands escaped, and opens it again. */
  function Escape(value: string): string {
    if value == "" then ""
    else (if value[0] == '\'' then "'\\''" else [value[0]]) + Escape(value[1..])
  }

  function QuoteArgument(value: string): string {
    if value == "" then "''"
    else if forall c | c in value :: IsSafe(c) then value
    else "'" + Escape(value) + "'"
  }

  function QuoteAll(words: seq<string>): seq<string> {
    seq(|words|, i requires 0 <= i < |words| => QuoteArgument(words[i]))
  }

  function CommandLine(command: string, args: seq<string>): string {
    Join(QuoteAll([command] + args), " ")
  }

  function CwdNote(cwd: string): string {
    if cwd != "." then "  (cwd " + cwd + ")" else ""
  }

  function StagedNote(files: seq<string>): string {
    if files != [] then "  (staged " + Join(files, ", ") + ")" else ""
  }

  /** The literal action a command asks consent for, as one line. */
  function ExecLine(command: string, args: seq<string>, cwd: string, files: seq<string>): string {
    CommandLine(command, args) + (CwdNote(cwd) + StagedNote(files))
  }

  lemma {:induction false} EscapedIsNoShorter(value: string)
    ensures |Escape(value)| >= |value|
  {
    if value != "" {
      EscapedIsNoShorter(value[1..]);
    }
  }

  /** An argument is shown bare exactly if it is made of letters, digits and ten harmless signs, and
      there is any; otherwise it stands in single quotes. */
  lemma QuotedExactlyWhenNeeded(value: string)
    ensures var shown := QuoteArgument(value);
      && (shown == value <==>
            && value != ""
            && forall c | c in value ::
                 'a' <= c <= 'z' || 'A' <= c <= 'Z' || '0' <= c <= '9' || c in ['_', '@', '%', '+', '=', ':', ',', '.', '/', '-'])
      && (shown != value ==> |shown| >= 2 && shown[0] == '\'' && shown[|shown| - 1] == '\'')
  {
    EscapedIsNoShorter(value);
  }

  // ----- Reading -----

  datatype Mode = Between | InWord(word: string) | InQuotes(word: string)

  /** A line of plain words; or words up to a character that is not part of one; or an open quote. */
  datatype Reading = Words(words: seq<string>) | Stops(words: seq<string>, rest: string) | Unclosed

  predicate IsBlank(c: char) {
    c == ' ' || c == '\t'
  }

  predicate IsSpecial(c: char) {
    || c == '|' || c == '&' || c == ';' || c == '<' || c == '>' || c == '(' || c == ')'
    || c == '$' || c == '`' || c == '\"' || c == '\n' || c == '*' || c == '?' || c == '['
    || c == ']' || c == '^' || c == '!' || c == '#' || c == '~' || c == '{' || c == '}'
  }

  function Prepend(word: string, reading: Reading): Reading {
    match reading
    case Words(words) => Words([word] + words)
    case Stops(words, rest) => Stops([word] + words, rest)
    case Unclosed => Unclosed
  }

  function Lex(s: string, mode: Mode): Reading
    decreases |s|
  {
    if mode.InQuotes? then
      if s == "" then Unclosed
      else if s[0] == '\'' then Lex(s[1..], InWord(mode.word))
      else Lex(s[1..], InQuotes(mode.word + [s[0]]))
    else if s == "" then
      Words(if mode.InWord? then [mode.word] else [])
    else if IsBlank(s[0]) then
      if mode.InWord? then Prepend(mode.word, Lex(s[1..], Between)) else Lex(s[1..], Between)
    else if IsSpecial(s[0]) then
      Stops(if mode.InWord? then [mode.word] else [], s)
    else
      var word := if mode.InWord? then mode.word else "";
      if s[0] == '\'' then Lex(s[1..], InQuotes(word))
      else if s[0] != '\\' then Lex(s[1..], InWord(word + [s[0]]))
      else if |s| == 1 then Stops(if mode.InWord? then [word] else [], s)
      else if s[1] == '\n' then Lex(s[2..], mode)
      else Lex(s[2..], InWord(word + [s[1]]))
  }

  // ----- Round trip -----

  /** No safe character means anything to the shell. */
  lemma SafeIsOrdinary(c: char)
    requires IsSafe(c)
    ensures !IsBlank(c) && !IsSpecial(c) && c != '\'' && c != '\\'
  {}

  lemma LexOrdinary(c: char, rest: string, mode: Mode)
    requires !IsBlank(c) && !IsSpecial(c) && c != '\'' && c != '\\' && !mode.InQuotes?
    ensures Lex([c] + rest, mode) == Lex(rest, InWord((if mode.InWord? then mode.word else "") + [c]))
  {}

  /** A safe character joins the word it is in, or begins one. */
  lemma LexSafe(c: char, rest: string, mode: Mode)
    requires IsSafe(c) && !mode.InQuotes?
    ensures Lex([c] + rest, mode) == Lex(rest, InWord((if mode.InWord? then mode.word else "") + [c]))
  {
    SafeIsOrdinary(c);
    LexOrdinary(c, rest, mode);
  }

  lemma {:induction false} LexPlain(value: string, word: string, rest: string)
    requires forall c | c in value :: IsSafe(c)
    ensures Lex(value + rest, InWord(word)) == Lex(rest, InWord(word + value))
  {
    if value == "" {
      assert value + rest == rest && word + value == word;
    } else {
      assert IsSafe(value[0]);
      assert value + rest == [value[0]] + (value[1..] + rest);
      LexSafe(value[0], value[1..] + rest, InWord(word));
      assert word + value == word + [value[0]] + value[1..];
      LexPlain(value[1..], word + [value[0]], rest);
    }
  }

  lemma LexQuoted(c: char, word: string, rest: string)
    requires c != '\''
    ensures Lex([c] + rest, InQuotes(word)) == Lex(rest, InQuotes(word + [c]))
  {}

  lemma LexQuote(rest: string, mode: Mode)
    ensures Lex("'" + rest, mode) ==
      Lex(rest, if mode.InQuotes? then InWord(mode.word)
                else InQuotes(if mode.InWord? then mode.word else ""))
  {}

  lemma LexEscapedQuote(word: string, rest: string)
    ensures Lex("\\'" + rest, InWord(word)) == Lex(rest, InWord(word + "'"))
  {}

  lemma EscapeSplits(value: string, rest: string)
    requires value != ""
    ensures var tail := Escape(value[1..]) + rest;
      Escape(value) + rest == if value[0] == '\'' then "'" + ("\\'" + ("'" + tail)) else [value[0]] + tail
  {}

  lemma {:induction false} LexEscaped(value: string, word: string, rest: string)
    ensures Lex(Escape(value) + ("'" + rest), InQuotes(word)) == Lex(rest, InWord(word + value))
  {
    if value == "" {
      assert Escape(value) + ("'" + rest) == "'" + rest;
      LexQuote(rest, InQuotes(word));
      assert word + value == word;
    } else {
      var c := value[0];
      var tail := Escape(value[1..]) + ("'" + rest);
      EscapeSplits(value, "'" + rest);
      LexEscaped(value[1..], word + [c], rest);
      assert word + value == word + [c] + value[1..];
      if c == '\'' {
        LexQuote("\\'" + ("'" + tail), InQuotes(word));
        LexEscapedQuote(word, "'" + tail);
        LexQuote(tail, InWord(word + "'"));
      } else {
        LexQuoted(c, word, tail);
      }
    }
  }

  /** One rendered argument reads back as one word, whatever follows. */
  lemma LexArgument(value: string, rest: string)
    ensures Lex(QuoteArgument(value) + rest, Between) == Lex(rest, InWord(value))
  {
    var quoted := QuoteArgument(value);
    if value == "" {
      assert quoted + rest == "'" + ("'" + rest);
      LexQuote("'" + rest, Between);
      LexQuote(rest, InQuotes(""));
    } else if forall c | c in value :: IsSafe(c) {
      assert quoted + rest == [value[0]] + (value[1..] + rest);
      LexSafe(value[0], value[1..] + rest, Between);
      LexPlain(value[1..], [value[0]], rest);
      assert [value[0]] + value[1..] == value && "" + [value[0]] == [value[0]];
    } else {
      assert quoted + rest == "'" + (Escape(value) + ("'" + rest));
      LexQuote(Escape(value) + ("'" + rest), Between);
      LexEscaped(value, "", rest);
      assert "" + value == value;
    }
  }

  /** What follows the last argument: nothing, or a note no word can run into. */
  predicate IsNote(note: string) {
    note == "" || (|note| >= 3 && note[..3] == "  (")
  }

  function ReadWith(words: seq<string>, note: string): Reading {
    if note == "" then Words(words) else Stops(words, note[if |note| < 2 then 0 else 2..])
  }

  lemma LexSpace(word: string, rest: string)
    ensures Lex(" " + rest, InWord(word)) == Prepend(word, Lex(rest, Between))
    ensures Lex(" " + rest, Between) == Lex(rest, Between)
  {}

  lemma LexNote(word: string, note: string)
    requires IsNote(note)
    ensures Lex(note, InWord(word)) == ReadWith([word], note)
  {
    if note != "" {
      assert note[0] == note[..3][0] && note[1] == note[..3][1] && note[2] == note[..3][2];
      assert note == " " + (" " + note[2..]);
      LexSpace(word, " " + note[2..]);
      LexSpace(word, note[2..]);
    }
  }

  lemma {:induction false} LexArguments(words: seq<string>, note: string)
    requires words != [] && IsNote(note)
    ensures Lex(Join(QuoteAll(words), " ") + note, Between) == ReadWith(words, note)
  {
    if |words| == 1 {
      LexArgument(words[0], note);
      LexNote(words[0], note);
      assert words == [words[0]];
    } else {
      var rest := Join(QuoteAll(words[1..]), " ") + note;
      assert QuoteAll(words)[1..] == QuoteAll(words[1..]);
      assert Join(QuoteAll(words), " ") + note == QuoteArgument(words[0]) + (" " + rest);
      LexArgument(words[0], " " + rest);
      LexSpace(words[0], rest);
      LexArguments(words[1..], note);
      assert words == [words[0]] + words[1..];
    }
  }

  /** Splitting the line gives back exactly the command and its arguments. */
  lemma CommandLineRoundTrips(command: string, args: seq<string>)
    ensures Lex(CommandLine(command, args), Between) == Words([command] + args)
  {
    LexArguments([command] + args, "");
    assert CommandLine(command, args) + "" == CommandLine(command, args);
  }

  lemma CommandLineIsInjective(command: string, args: seq<string>, command': string, args': seq<string>)
    requires CommandLine(command, args) == CommandLine(command', args')
    ensures command == command' && args == args'
  {
    CommandLineRoundTrips(command, args);
    CommandLineRoundTrips(command', args');
    assert ([command] + args)[1..] == args && ([command'] + args')[1..] == args';
    assert ([command] + args)[0] == ([command'] + args')[0];
  }

  /** The notes never pass for arguments: the shell's reading ends where they begin. */
  lemma NotesAreNotArguments(command: string, args: seq<string>, cwd: string, files: seq<string>)
    ensures Lex(ExecLine(command, args, cwd, files), Between) ==
            ReadWith([command] + args, CwdNote(cwd) + StagedNote(files))
    ensures (Lex(ExecLine(command, args, cwd, files), Between) == Words([command] + args)) <==>
            (cwd == "." && files == [])
  {
    LexArguments([command] + args, CwdNote(cwd) + StagedNote(files));
  }

  function Notes(cwd: string, files: seq<string>): string {
    CwdNote(cwd) + StagedNote(files)
  }

  /** So two consent lines look the same exactly when they ask for the same command and arguments
      with the same text of notes. */
  lemma ConsentLinesAreInjective(
      command: string, args: seq<string>, cwd: string, files: seq<string>,
      command': string, args': seq<string>, cwd': string, files': seq<string>)
    ensures ExecLine(command, args, cwd, files) == ExecLine(command', args', cwd', files') <==>
      command == command' && args == args' && Notes(cwd, files) == Notes(cwd', files')
  {
    if ExecLine(command, args, cwd, files) == ExecLine(command', args', cwd', files') {
      NotesAreNotArguments(command, args, cwd, files);
      NotesAreNotArguments(command', args', cwd', files');
      assert ([command] + args)[1..] == args && ([command'] + args')[1..] == args';
      assert ([command] + args)[0] == ([command'] + args')[0];
      var line := ExecLine(command, args, cwd, files);
      assert line[|CommandLine(command, args)|..] == Notes(cwd, files);
      assert line[|CommandLine(command', args')|..] == Notes(cwd', files');
    }
  }

  // ----- What the notes tell -----

  const SEPARATOR := ", "
  const INNER := ")  (staged "

  predicate OccursAt(s: string, word: string, i: nat) {
    i + |word| <= |s| && s[i..i + |word|] == word
  }

  lemma OccursInside(before: string, word: string, after: string)
    ensures OccursAt(before + word + after, word, |before|) && (before + word + after)[..|before|] == before
  {}

  /** Whether the notes can be read in one way only: no directory that reads as a directory with
      staged files, no directory together with staged files, and at most one file, whose name does
      not read as several. */
  ghost predicate Unambiguous(cwd: string, files: seq<string>) {
    if cwd == "." then
      files == [] || (|files| == 1 && forall i: nat :: !OccursAt(files[0], SEPARATOR, i))
    else
      files == [] && forall i: nat | OccursAt(cwd, INNER, i) :: cwd[..i] == "."
  }

  /** Two notes that are not the same directory and files, but the same text. */
  ghost predicate SameText(cwd: string, files: seq<string>, cwd': string, files': seq<string>) {
    Notes(cwd, files) == Notes(cwd', files') && (cwd != cwd' || files != files')
  }

  lemma JoinCons(first: string, rest: seq<string>)
    requires rest != []
    ensures Join([first] + rest, SEPARATOR) == first + SEPARATOR + Join(rest, SEPARATOR)
  {
    assert ([first] + rest)[1..] == rest;
  }

  /** Names that join to one without a separator are that one name. */
  lemma OneName(files: seq<string>, name: string)
    requires files != [] && Join(files, SEPARATOR) == name && forall i: nat :: !OccursAt(name, SEPARATOR, i)
    ensures files == [name]
  {
    if |files| > 1 {
      assert files == [files[0]] + files[1..];
      JoinCons(files[0], files[1..]);
      assert name[|files[0]|..|files[0]| + |SEPARATOR|] == SEPARATOR;
      assert OccursAt(name, SEPARATOR, |files[0]|);
    }
  }

  /** The inside of a note in parentheses is determined by the note. */
  lemma SameInside(before: string, a: string, b: string)
    requires before + a + ")" == before + b + ")"
    ensures a == b
  {
    assert (before + a + ")")[|before|..|before| + |a|] == a;
    assert (before + b + ")")[|before|..|before| + |b|] == b;
    assert |before + a + ")"| == |before + b + ")"|;
  }

  lemma DirectoryText(cwd: string, files: seq<string>)
    requires cwd != "." && files != []
    ensures Notes(cwd, files) == "  (cwd " + (cwd + INNER + Join(files, SEPARATOR)) + ")"
  {
    assert ")" + "  (staged " == INNER;
    Regroup("  (cwd ", cwd, ")", "  (staged ", Join(files, SEPARATOR));
  }

  lemma Regroup(open: string, a: string, close: string, reopen: string, b: string)
    ensures (open + a + close) + (reopen + b + close) == open + (a + (close + reopen) + b) + close
  {
    assert (open + a + close) + (reopen + b + close) == open + a + close + reopen + b + close;
    assert open + (a + (close + reopen) + b) == open + a + close + reopen + b;
  }

  lemma PlainTexts(cwd: string, files: seq<string>)
    requires cwd != "." && files != []
    ensures Notes(cwd, []) == "  (cwd " + cwd + ")"
    ensures Notes(".", files) == "  (staged " + Join(files, SEPARATOR) + ")"
  {}

  lemma KindsDiffer(cwd: string, files: seq<string>, files': seq<string>)
    requires cwd != "."
    ensures Notes(cwd, files) != Notes(".", files')
  {
    assert Notes(cwd, files)[3] == 'c';
    if files' != [] {
      assert Notes(".", files')[3] == 's';
    }
  }

  /** Every other reading of an ambiguous note, found. */
  lemma AnotherReading(cwd: string, files: seq<string>) returns (cwd': string, files': seq<string>)
    requires !Unambiguous(cwd, files)
    ensures SameText(cwd, files, cwd', files')
  {
    cwd', files' := cwd, files;
    if cwd == "." {
      if |files| > 1 {
        files' := [Join(files, SEPARATOR)];
      } else {
        var i: nat :| OccursAt(files[0], SEPARATOR, i);
        var head, tail := files[0][..i], files[0][i + |SEPARATOR|..];
        files' := [head] + [tail];
        JoinCons(head, [tail]);
        assert files[0] == head + SEPARATOR + tail;
      }
    } else if files != [] {
      DirectoryText(cwd, files);
      cwd', files' := cwd + INNER + Join(files, SEPARATOR), [];
    } else {
      var i: nat :| OccursAt(cwd, INNER, i) && cwd[..i] != ".";
      cwd', files' := cwd[..i], [cwd[i + |INNER|..]];
      assert cwd == cwd' + INNER + files'[0];
      DirectoryText(cwd', files');
    }
  }

  lemma OnlyReading(cwd: string, files: seq<string>, cwd': string, files': seq<string>)
    requires Unambiguous(cwd, files) && Notes(cwd, files) == Notes(cwd', files')
    ensures cwd == cwd' && files == files'
  {
    if cwd == "." && cwd' != "." {
      KindsDiffer(cwd', files', files);
    } else if cwd != "." && cwd' == "." {
      KindsDiffer(cwd, files, files');
    } else if cwd == "." {
      OnlyFiles(files, files');
    } else {
      OnlyDirectory(cwd, cwd', files');
    }
  }

  lemma OnlyFiles(files: seq<string>, files': seq<string>)
    requires Unambiguous(".", files) && Notes(".", files) == Notes(".", files')
    ensures files == files'
  {
    if files != [] && files' != [] {
      PlainTexts("", files);
      PlainTexts("", files');
      SameInside("  (staged ", Join(files, SEPARATOR), Join(files', SEPARATOR));
      OneName(files', files[0]);
    }
  }

  lemma OnlyDirectory(cwd: string, cwd': string, files': seq<string>)
    requires cwd != "." && cwd' != "." && Unambiguous(cwd, []) && Notes(cwd, []) == Notes(cwd', files')
    ensures cwd == cwd' && files' == []
  {
    PlainTexts(cwd, [""]);
    if files' == [] {
      PlainTexts(cwd', [""]);
      SameInside("  (cwd ", cwd, cwd');
    } else {
      DirectoryText(cwd', files');
      SameInside("  (cwd ", cwd, cwd' + INNER + Join(files', SEPARATOR));
      OccursInside(cwd', INNER, Join(files', SEPARATOR));
    }
  }

  /** What a consent line says of the directory and the staged files is certain exactly for the
      notes that can be read in one way: two files are never told from one. */
  lemma NotesAreCertainExactlyWhen(cwd: string, files: seq<string>)
    ensures (forall cwd', files' :: !SameText(cwd, files, cwd', files')) <==> Unambiguous(cwd, files)
  {
    if Unambiguous(cwd, files) {
      forall cwd', files' ensures !SameText(cwd, files, cwd', files') {
        if Notes(cwd, files) == Notes(cwd', files') {
          OnlyReading(cwd, files, cwd', files');
        }
      }
    } else {
      var cwd', files' := AnotherReading(cwd, files);
    }
  }
}
