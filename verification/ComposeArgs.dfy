/** ARG injection into the Dockerfile of a Compose service, from the text of the file to the text that is
    written back. Two services can share a Dockerfile, so the rewrite runs again on its own output. */
module ComposeArgs {
  import opened DockerfileText
  import opened StageArgs
  import opened Wrappers

  function After(s: string, c: char): Option<string> {
    if s == "" then None
    else if s[0] == c then Some(s[1..])
    else After(s[1..], c)
  }

  function Before(s: string, c: char): (r: string)
    ensures c !in s ==> r == s
  {
    if s == "" || s[0] == c then "" else [s[0]] + Before(s[1..], c)
  }

  /** What an ARG line declares: the text between the first space and the first "=" after it. */
  function ArgKey(line: string): Option<string> {
    match After(Trim(line), ' ')
    case None => None
    case Some(rest) => Some(Before(rest, '='))
  }

  /** The empty line and "0" are falsy and count as other lines. */
  function KindOf(line: string): Kind<string> {
    if StartsWith(Trim(line), "FROM") then From
    else if line != "" && line != "0" && StartsWith(Trim(line), "ARG") then Arg(ArgKey(line))
    else Other
  }

  function ArgLine(key: string): string {
    "ARG " + key
  }

  const COMPOSE: Syntax<string, string> := Syntax(KindOf, ArgLine)

  lemma {:induction false} AfterPrefix(prefix: string, c: char, rest: string)
    requires c !in prefix
    ensures After(prefix + [c] + rest, c) == Some(rest)
  {
    var s := prefix + [c] + rest;
    if prefix == "" {
      assert s[1..] == rest;
    } else {
      assert s[1..] == prefix[1..] + [c] + rest;
      AfterPrefix(prefix[1..], c, rest);
    }
  }

  /** A declaration of a valid key is read back as a declaration of that key. */
  lemma ArgLineDeclares(key: string)
    requires ValidKey(key)
    ensures KindOf(ArgLine(key)) == Arg(Some(key))
    ensures OneLine(ArgLine(key)) && !IsSpace(ArgLine(key)[|ArgLine(key)| - 1])
  {
    var line := ArgLine(key);
    KeyChars(key);
    assert line[0] == 'A' && line[|line| - 1] == key[|key| - 1];
    assert Trim(line) == line;
    assert line[..3] == "ARG";
    StartsWithHead(line, "FROM");
    assert line == "ARG" + [' '] + key;
    AfterPrefix("ARG", ' ', key);
    forall i | 0 <= i < |line| ensures line[i] != '\n' {
      if i >= 4 { assert line[i] == key[i - 4]; }
    }
  }

  lemma ComposeSound(keys: seq<string>)
    requires ValidKeys(keys)
    ensures Sound(COMPOSE, keys)
  {
    forall i | 0 <= i < |keys| ensures COMPOSE.kind(COMPOSE.declare(keys[i])) == Arg(Some(keys[i])) {
      ArgLineDeclares(keys[i]);
    }
  }

  // ------------------------------------------------------------- the file

  predicate HasFrom(lines: seq<string>) {
    exists i :: 0 <= i < |lines| && IsFrom(COMPOSE, lines[i])
  }

  /** The content of the Dockerfile after the run. An empty file or "0" is skipped, and so is a file
      without a FROM line; a file to which nothing is added is not written. */
  function InjectedFile(content: string, keys: seq<string>): string {
    var lines := Explode(Trim(content));
    var out := Rewrite(COMPOSE, lines, keys);
    if content == "" || content == "0" || !HasFrom(lines) || |out| == |lines| then content
    else Implode(out)
  }

  method ModifyDockerfile(content: string, keys: seq<string>) returns (written: string)
    ensures written == InjectedFile(content, keys)
  {
    hide KindOf, Trim, Explode, Implode, Rewrite, IsFrom;
    written := content;
    if content == "" || content == "0" {
      return;
    }
    var lines := Explode(Trim(content));
    var from := FindFromLines(COMPOSE, lines);
    if from == [] {
      return;
    }
    assert IsFrom(COMPOSE, lines[from[0]]);
    var out, totalAdded := InsertArgs(COMPOSE, lines, keys);
    if totalAdded > 0 {
      written := Implode(out);
    }
  }

  lemma ArgLineIsNotEmpty(key: string)
    ensures ArgLine(key) != ""
  {
  }

  lemma {:induction false} MissingLines(keys: seq<string>, existing: seq<string>)
    requires ValidKeys(keys)
    ensures var m := Missing(COMPOSE, keys, existing);
      && (forall i :: 0 <= i < |m| ==> OneLine(m[i]))
      && (m != [] ==> m[|m| - 1] != "" && !IsSpace(m[|m| - 1][|m[|m| - 1]| - 1]))
  {
    hide OneLine, IsSpace, KindOf, ArgLine, ValidKey;
    if keys != [] {
      MissingLines(keys[1..], existing);
      ArgLineDeclares(keys[0]);
      assert ArgLine(keys[0]) != "" by { ArgLineIsNotEmpty(keys[0]); }
    }
  }

  predicate EndsTight(lines: seq<string>) {
    && Lines(lines)
    && lines[|lines| - 1] != "" && !IsSpace(lines[|lines| - 1][|lines[|lines| - 1]| - 1])
  }

  lemma EndsTightConcat(a: seq<string>, b: seq<string>)
    requires forall i :: 0 <= i < |a| ==> OneLine(a[i])
    requires EndsTight(b) || (b == [] && a != [] && EndsTight(a))
    ensures EndsTight(a + b)
  {
    hide OneLine, IsSpace;
    if b == [] { assert a + b == a; }
  }

  lemma {:induction false} RewriteEndsTight(lines: seq<string>, keys: seq<string>)
    requires ValidKeys(keys) && EndsTight(lines)
    ensures EndsTight(Rewrite(COMPOSE, lines, keys))
  {
    hide ValidKeys, OneLine, IsSpace, KindOf, ArgLine;
    var rest := Rewrite(COMPOSE, lines[1..], keys);
    var m := Missing(COMPOSE, keys, Existing(COMPOSE, lines[1..]));
    MissingLines(keys, Existing(COMPOSE, lines[1..]));
    if |lines| > 1 {
      RewriteEndsTight(lines[1..], keys);
      EndsTightConcat([lines[0]], rest);
      EndsTightConcat([lines[0]] + m, rest);
    } else {
      assert rest == [];
      assert EndsTight([lines[0]]);
      assert [lines[0]] + rest == [lines[0]];
      if m != [] { EndsTightConcat([lines[0]], m); }
      assert [lines[0]] + m + rest == [lines[0]] + m;
      assert m == [] ==> [lines[0]] + m == [lines[0]];
    }
  }

  lemma FromIsNotBlank(lines: seq<string>, text: string)
    requires lines == Explode(text) && HasFrom(lines)
    ensures text != ""
  {
    if text == "" {
      var i :| 0 <= i < |lines| && IsFrom(COMPOSE, lines[i]);
      assert lines == [""];
      StartsWithHead(Trim(""), "FROM");
    }
  }

  /** Running the injection again on the written file changes nothing, whatever the file holds. */
  lemma InjectedFileIdempotent(content: string, keys: seq<string>)
    requires ValidKeys(keys)
    ensures InjectedFile(InjectedFile(content, keys), keys) == InjectedFile(content, keys)
  {
    hide KindOf, Trim, Explode, Implode, Rewrite, IsSpace, OneLine;
    var lines := Explode(Trim(content));
    var out := Rewrite(COMPOSE, lines, keys);
    var written := InjectedFile(content, keys);
    if written != content {
      FromIsNotBlank(lines, Trim(content));
      ReadIsTight(content);
      RewriteEndsTight(lines, keys);
      ReadBack(out);
      assert Explode(Trim(written)) == out;
      ComposeSound(keys);
      RewriteIdempotent(COMPOSE, lines, keys);
    }
  }

  /** In a file that was written, every stage declares every key, and the lines that were there are all
      still there in their order; the other lines are declarations of the keys. */
  lemma InjectedFileStages(content: string, keys: seq<string>, i: nat)
    requires ValidKeys(keys) && content != "" && content != "0"
    requires HasFrom(Explode(Trim(content)))
    ensures var lines := Explode(Trim(content)); var out := Explode(Trim(InjectedFile(content, keys)));
      && OnlyInserts(COMPOSE, lines, out, keys)
      && (i < |out| && IsFrom(COMPOSE, out[i]) ==>
            forall key :: key in keys ==> key in Existing(COMPOSE, out[i + 1..]))
  {
    var lines := Explode(Trim(content));
    var out := Rewrite(COMPOSE, lines, keys);
    FromIsNotBlank(lines, Trim(content));
    ReadIsTight(content);
    RewriteEndsTight(lines, keys);
    ReadBack(out);
    ComposeSound(keys);
    RewriteOnlyInserts(COMPOSE, lines, keys);
    if i < |out| && IsFrom(COMPOSE, out[i]) {
      EveryStageDeclaresEveryKey(COMPOSE, lines, keys, i);
    }
    if |out| == |lines| {
      NothingAdded(COMPOSE, lines, keys);
    }
  }
}
