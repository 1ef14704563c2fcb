/** A Dockerfile for which the rewrite of secret mounts is not idempotent, for every list of keys with a dot
    in one of them. */
module SecretMountsTwice {
  import opened DockerfileText
  import opened SecretMounts
  import opened Wrappers

  lemma {:induction false} KeyOfName(name: string)
    requires '=' !in name
    ensures Key(name) == name
  {
    if name != "" {
      KeyOfName(name[1..]);
    }
  }

  lemma NotRun(line: string, keys: seq<string>)
    requires line != "" && !IsSpace(line[0]) && line[0] != 'R'
    ensures WithMounts(line, keys) == line
  {
    assert TrimLeft(line) == line;
    StartsWithHead(line, "RUN");
    hide Contains;
  }

  lemma NotDeclaredStays(line: string, dotted: seq<string>)
    requires !Declares(line) && line != "" && line != "0"
    ensures FilterLine(line, dotted) == [line]
  {
    hide Declares;
  }

  lemma ZeroLine(dotted: seq<string>, keys: seq<string>)
    ensures FilterLine("0 ", dotted) == ["0 "] && WithMounts("0 ", keys) == "0 " && TrimRight("0 ") == "0"
    ensures OneLine("0 ")
  {
    hide FilterLine, WithMounts, Declares, TrimRight;
    NotDeclared("0 ");
    NotDeclaredStays("0 ", dotted);
    NotRun("0 ", keys);
    TrimLastSpace("0 ");
  }

  lemma DottedArgument(name: string, dotted: seq<string>)
    requires ValidKey(name) && name in dotted
    ensures var line := "ARG " + name; FilterLine(line, dotted) == [] && TrimRight(line) == line && OneLine(line)
  {
    assert name != "";
    hide ValidKey, Words, Trim, TrimRight, Join, Declares;
    KeyChars(name);
    KeyOfName(name);
    assert Word(name) && WordsOk([name]);
    Reassembled("ARG ", [name]);
    var line := "ARG " + name;
    assert Join([name]) == name by { OneWord(name); }
    assert Kept([name], dotted) == [];
    TightStays(line);
    WordLine("ARG ");
    OneLineConcat("ARG ", name);
  }

  lemma OneWord(w: string)
    ensures Join([w]) == w
  {
  }

  /** The file whose only argument is dropped, so that the line before it becomes the last one. */
  function ZeroFile(name: string): seq<string> {
    [SYNTAX_LINE, "0 ", "ARG " + name]
  }

  lemma SyntaxLine()
    ensures StartsWith(SYNTAX_LINE, SYNTAX_MARK) && OneLine(SYNTAX_LINE)
    ensures SYNTAX_LINE != "" && !IsSpace(SYNTAX_LINE[0])
  {
  }

  lemma TwoStay(a: string, b: string, c: string, dotted: seq<string>)
    requires FilterLine(a, dotted) == [a] && FilterLine(b, dotted) == [b] && FilterLine(c, dotted) == []
    ensures FilterDotted([a, b, c], dotted) == [a, b]
  {
    hide FilterLine;
    assert FilterDotted([c][1..], dotted) == [];
    assert FilterDotted([c], dotted) == [];
    assert [b, c][1..] == [c];
    assert [a, b, c][1..] == [b, c];
    assert FilterDotted([b, c], dotted) == [b];
  }

  lemma PipelineOfThree(a: string, b: string, c: string, keys: seq<string>)
    requires Dotted(keys) != [] && WithSyntax([a, b, c]) == [a, b, c]
    requires var dotted := Dotted(keys);
      FilterLine(a, dotted) == [a] && FilterLine(b, dotted) == [b] && FilterLine(c, dotted) == []
    requires WithMounts(a, keys) == a && WithMounts(b, keys) == b
    ensures Pipeline([a, b, c], keys) == [a, b]
  {
    hide FilterLine, WithMounts, Dotted, WithSyntax;
    TwoStay(a, b, c, Dotted(keys));
    assert Filtered([a, b, c], keys) == [a, b];
    assert MountRuns([a, b], keys) == [a, b];
  }

  lemma SyntaxLineFiltered(line: string, dotted: seq<string>, keys: seq<string>)
    requires StartsWith(line, SYNTAX_MARK)
    ensures FilterLine(line, dotted) == [line] && WithMounts(line, keys) == line
  {
    SyntaxLineStays(line, dotted, keys);
  }

  lemma ZeroFileFirstRun(keys: seq<string>)
    requires ValidKeys(keys) && Dotted(keys) != []
    ensures Pipeline(ZeroFile(Dotted(keys)[0]), keys) == [SYNTAX_LINE, "0 "]
  {
    var dotted := Dotted(keys);
    var lines := ZeroFile(dotted[0]);
    assert ValidKey(dotted[0]) && dotted[0] != "" by { DottedIsKey(keys); }
    SyntaxLine();
    hide StartsWith, Dotted, ValidKey, ValidKeys;
    assert WithSyntax(lines) == lines;
    SyntaxLineFiltered(SYNTAX_LINE, dotted, keys);
    ZeroLine(dotted, keys);
    DottedArgument(dotted[0], dotted);
    hide FilterLine, WithMounts, OneLine, TrimRight, IsSpace;
    PipelineOfThree(SYNTAX_LINE, "0 ", "ARG " + dotted[0], keys);
  }

  lemma DottedIsKey(keys: seq<string>)
    requires ValidKeys(keys) && Dotted(keys) != []
    ensures ValidKey(Dotted(keys)[0]) && Dotted(keys)[0] != ""
  {
    hide ValidKey;
    var name := Dotted(keys)[0];
    assert name in keys && '.' in name;
  }

  lemma TrimTailLast(front: seq<string>, last: string)
    requires TrimRight(last) != ""
    ensures TrimTail(front + [last]) == front + [TrimRight(last)]
  {
    hide TrimRight;
    assert (front + [last])[..|front|] == front;
  }

  lemma ReadBackThree(a: string, b: string, c: string)
    requires OneLine(a) && OneLine(b) && OneLine(c)
    requires a != "" && !IsSpace(a[0]) && c != "" && TrimRight(c) == c
    ensures Lines([a, b, c]) && Explode(Trim(Implode([a, b, c]))) == [a, b, c]
  {
    hide OneLine, TrimRight, Explode, Implode, TrimTail, Trim, IsSpace;
    assert [a, b] + [c] == [a, b, c];
    TrimTailLast([a, b], c);
    ReadBackLoose([a, b, c]);
  }

  lemma ZeroOutTail()
    ensures TrimTail([SYNTAX_LINE, "0 "]) == [SYNTAX_LINE, "0"]
  {
    hide TrimTail, TrimRight;
    TrimLastSpace("0 ");
    assert TrimRight("0 ") == "0";
    TrimTailLast([SYNTAX_LINE], "0 ");
    assert [SYNTAX_LINE] + ["0 "] == [SYNTAX_LINE, "0 "];
  }

  lemma ZeroFileRead(keys: seq<string>)
    requires ValidKeys(keys) && Dotted(keys) != []
    ensures var lines := ZeroFile(Dotted(keys)[0]); Lines(lines) && Explode(Trim(Implode(lines))) == lines
  {
    var name := Dotted(keys)[0];
    DottedIsKey(keys);
    hide Dotted, ValidKeys, OneLine, TrimRight, Explode, Implode, FilterLine, WithMounts, TrimTail, Trim, Lines;
    ZeroFileReadAs(name, Dotted(keys));
  }

  lemma ZeroFileReadAs(name: string, dotted: seq<string>)
    requires ValidKey(name) && name in dotted
    ensures var lines := ZeroFile(name); Lines(lines) && Explode(Trim(Implode(lines))) == lines
  {
    hide ValidKey, OneLine, TrimRight, Explode, Implode, FilterLine, WithMounts, TrimTail, Trim, Lines;
    SyntaxLine();
    ZeroLine(dotted, []);
    DottedArgument(name, dotted);
    ReadBackThree(SYNTAX_LINE, "0 ", "ARG " + name);
  }

  /** With any dotted key idempotence fails for some file: the removal of the last ARG line makes "0 " the
      last line, which is read back as "0". */
  lemma SecretsFileNotIdempotent(keys: seq<string>)
    requires ValidKeys(keys) && Dotted(keys) != []
    ensures var content := Implode(ZeroFile(Dotted(keys)[0]));
      SecretsFile(SecretsFile(content, keys), keys) != SecretsFile(content, keys)
  {
    var lines := ZeroFile(Dotted(keys)[0]);
    ZeroFileFirstRun(keys);
    ZeroFileRead(keys);
    ZeroOutTail();
    hide Implode, Explode, Trim, TrimTail, Pipeline, Dotted, ValidKeys, OneLine, SecretsFile, StartsWith, ZeroFile;
    SecondRun(lines, keys);
    SecondRead(lines, keys);
    assert SecretsFile(Implode(lines), keys) == Implode([SYNTAX_LINE, "0 "]) by { ShorterIsWritten(lines, keys); }
  }

  lemma ShorterIsWritten(lines: seq<string>, keys: seq<string>)
    requires lines != [] && Explode(Trim(Implode(lines))) == lines && keys != []
    requires Pipeline(lines, keys) != [] && |Pipeline(lines, keys)| < |lines|
    ensures SecretsFile(Implode(lines), keys) == Implode(Pipeline(lines, keys))
  {
    hide Implode, Explode, Trim, Dotted, WithMounts, FilterDotted, SYNTAX_MARK, StartsWith;
    assert Modified(lines, keys);
  }
}
