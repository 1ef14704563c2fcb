/** The rewrite of a Dockerfile for BuildKit build secrets: a syntax line, no ARG or ENV for keys with a
    dot, and a secret mount on every RUN line. */
module SecretMounts {
  import opened DockerfileText
  import opened Wrappers

  const SYNTAX_MARK := "# syntax="
  const SYNTAX_LINE := "# syntax=docker/dockerfile:1"
  const MOUNT_MARK := "--mount=type=secret"

  // ------------------------------------------------------------- words of an ARG or ENV line

  predicate Word(s: string) {
    forall i :: 0 <= i < |s| ==> !IsSpace(s[i])
  }

  /** preg_split at whitespace runs: only the first part can be empty if the text ends visibly. */
  function Words(s: string): (r: seq<string>)
    ensures r != []
    decreases |s|
  {
    if s == "" then [""]
    else if IsSpace(s[0]) then [""] + Words(TrimLeft(s))
    else var rest := Words(s[1..]); [[s[0]] + rest[0]] + rest[1..]
  }

  function Join(words: seq<string>): string {
    if words == [] then ""
    else if |words| == 1 then words[0]
    else words[0] + " " + Join(words[1..])
  }

  function Key(argument: string): string {
    if argument == "" || argument[0] == '=' then "" else [argument[0]] + Key(argument[1..])
  }

  function Kept(words: seq<string>, dotted: seq<string>): (r: seq<string>)
    ensures forall w :: w in r <==> w in words && Key(w) !in dotted
  {
    if words == [] then []
    else if Key(words[0]) in dotted then Kept(words[1..], dotted)
    else [words[0]] + Kept(words[1..], dotted)
  }

  predicate Declares(line: string) {
    StartsWith(Trim(line), "ARG ") || StartsWith(Trim(line), "ENV ")
  }

  /** The line without the dotted keys; None when no argument is left. */
  function WithoutDotted(line: string, dotted: seq<string>): Option<string> {
    if !Declares(line) then Some(line)
    else
      var text := Trim(line);
      var kept := Kept(Words(text[4..]), dotted);
      if kept == [] then None else Some(text[..4] + Join(kept))
  }

  /** What is left of a line: nothing if it was removed or is falsy, the empty line or "0". */
  function FilterLine(line: string, dotted: seq<string>): (r: seq<string>)
    ensures |r| <= 1
  {
    match WithoutDotted(line, dotted)
    case None => []
    case Some(l) => if l == "" || l == "0" then [] else [l]
  }

  function FilterDotted(lines: seq<string>, dotted: seq<string>): seq<string> {
    if lines == [] then [] else FilterLine(lines[0], dotted) + FilterDotted(lines[1..], dotted)
  }

  // ------------------------------------------------------------- RUN lines

  predicate ContainsAt(s: string, part: string, i: nat) {
    i + |part| <= |s| && s[i..i + |part|] == part
  }

  predicate Contains(s: string, part: string) {
    exists i: nat :: i <= |s| && ContainsAt(s, part, i)
  }

  predicate IsRun(line: string) {
    StartsWith(TrimLeft(line), "RUN")
  }

  function Mount(key: string): string {
    MOUNT_MARK + ",id=" + key + ",env=" + key
  }

  function Mounts(keys: seq<string>): string {
    Join(MountList(keys + ["COOLIFY_BUILD_SECRETS_HASH"]))
  }

  function MountList(keys: seq<string>): seq<string> {
    if keys == [] then [] else [Mount(keys[0])] + MountList(keys[1..])
  }

  function WithMounts(line: string, keys: seq<string>): string {
    if Contains(line, MOUNT_MARK) || !IsRun(line) then line
    else "RUN " + Mounts(keys) + " " + Trim(TrimLeft(line)[3..])
  }

  function MountRuns(lines: seq<string>, keys: seq<string>): (r: seq<string>)
    ensures |r| == |lines|
    ensures forall i :: 0 <= i < |lines| ==> r[i] == WithMounts(lines[i], keys)
  {
    if lines == [] then [] else [WithMounts(lines[0], keys)] + MountRuns(lines[1..], keys)
  }

  // ------------------------------------------------------------- the file

  function Dotted(keys: seq<string>): (r: seq<string>)
    ensures forall key :: key in r ==> key in keys && '.' in key
  {
    if keys == [] then []
    else if '.' in keys[0] then [keys[0]] + Dotted(keys[1..])
    else Dotted(keys[1..])
  }

  function WithSyntax(lines: seq<string>): (r: seq<string>)
    requires lines != []
    ensures r != [] && StartsWith(r[0], SYNTAX_MARK)
  {
    if StartsWith(lines[0], SYNTAX_MARK) then lines else [SYNTAX_LINE] + lines
  }

  function Filtered(lines: seq<string>, keys: seq<string>): seq<string> {
    if Dotted(keys) == [] then lines else FilterDotted(lines, Dotted(keys))
  }

  /** The lines that the pipeline produces, whether or not they are written. */
  function Pipeline(lines: seq<string>, keys: seq<string>): seq<string>
    requires lines != []
  {
    MountRuns(Filtered(WithSyntax(lines), keys), keys)
  }

  /** The file is written only if the filter changed a line or a RUN line got its mounts. */
  predicate Modified(lines: seq<string>, keys: seq<string>)
    requires lines != []
  {
    var filtered := Filtered(WithSyntax(lines), keys);
    filtered != WithSyntax(lines) || MountRuns(filtered, keys) != filtered
  }

  lemma SyntaxLineStays(line: string, dotted: seq<string>, keys: seq<string>)
    requires StartsWith(line, SYNTAX_MARK)
    ensures WithoutDotted(line, dotted) == Some(line) && line != "" && line != "0"
    ensures WithMounts(line, keys) == line
  {
    hide Contains, Words, Kept, Join, Mounts, IsRun, Declares, StartsWith, Trim, TrimLeft;
    StartsWithHead(line, SYNTAX_MARK);
    NoInstruction(line);
  }

  lemma NoInstruction(line: string)
    requires line != "" && line[0] == '#'
    ensures !IsRun(line) && !Declares(line)
  {
    assert TrimLeft(line) == line;
    TrimKeepsHead(line);
    hide Trim, TrimLeft;
    StartsWithHead(line, "RUN");
    StartsWithHead(Trim(line), "ARG ");
    StartsWithHead(Trim(line), "ENV ");
  }

  lemma TrimKeepsHead(s: string)
    requires s != "" && !IsSpace(s[0])
    ensures Trim(s) != "" && Trim(s)[0] == s[0]
  {
  }

  /** The syntax line stays the first line. */
  lemma PipelineHead(lines: seq<string>, keys: seq<string>)
    requires lines != []
    ensures var out := Pipeline(lines, keys); out != [] && out[0] == WithSyntax(lines)[0]
  {
    SyntaxLineStays(WithSyntax(lines)[0], Dotted(keys), keys);
  }

  /** The content of the Dockerfile after the run. Without variables nothing is done. */
  function SecretsFile(content: string, keys: seq<string>): string {
    var lines := Explode(Trim(content));
    if keys == [] || !Modified(lines, keys) then content
    else
      PipelineHead(lines, keys);
      Implode(Pipeline(lines, keys))
  }

  // ------------------------------------------------------------- words

  predicate WordsOk(words: seq<string>) {
    && words != []
    && (forall i :: 0 <= i < |words| ==> Word(words[i]))
    && (forall i :: 0 < i < |words| ==> words[i] != "")
  }

  lemma {:induction false} WordsAreWords(s: string)
    requires s != "" ==> !IsSpace(s[|s| - 1])
    ensures WordsOk(Words(s))
    ensures s != "" && !IsSpace(s[0]) ==> Words(s)[0] != ""
    decreases |s|
  {
    hide WordsOk, IsSpace;
    if s == "" {
      BlankAlone();
    } else {
      if IsSpace(s[0]) {
        WordsAreWords(TrimLeft(s));
        BlankBefore(Words(TrimLeft(s)));
      } else {
        WordsAreWords(s[1..]);
        ExtendFirst(s[0], Words(s[1..]));
      }
    }
  }

  lemma BlankAlone()
    ensures WordsOk([""])
  {
  }

  lemma BlankBefore(words: seq<string>)
    requires WordsOk(words) && words[0] != ""
    ensures WordsOk([""] + words)
  {
  }

  lemma ExtendFirst(c: char, words: seq<string>)
    requires WordsOk(words) && !IsSpace(c)
    ensures WordsOk([[c] + words[0]] + words[1..])
  {
    assert Word(words[0]);
    assert Word([c] + words[0]);
  }

  lemma {:induction false} WordAlone(w: string)
    requires Word(w)
    ensures Words(w) == [w]
  {
    if w != "" {
      assert Word(w[1..]);
      WordAlone(w[1..]);
      assert [w[0]] + w[1..] == w;
    }
  }

  lemma WordsExtend(t: string, first: string, others: seq<string>)
    requires t != "" && !IsSpace(t[0]) && Words(t[1..]) == [first] + others
    ensures Words(t) == [[t[0]] + first] + others
  {
    hide IsSpace;
    assert ([first] + others)[1..] == others;
  }

  lemma SpaceThen(s: string)
    requires s != "" && !IsSpace(s[0])
    ensures Words(" " + s) == [""] + Words(s)
  {
    var t := " " + s;
    assert t[1..] == s;
    assert TrimLeft(s) == s;
    assert TrimLeft(t) == s;
  }

  lemma {:induction false} WordThen(w: string, s: string)
    requires Word(w) && s != "" && !IsSpace(s[0])
    ensures Words(w + " " + s) == [w] + Words(s)
  {
    hide TrimLeft, Words, IsSpace;
    var t := w + " " + s;
    if w == "" {
      SpaceThen(s);
      assert t == " " + s;
    } else {
      var r := w[1..];
      assert t[1..] == r + " " + s;
      WordThen(r, s);
      assert [w[0]] + r == w;
      WordsExtend(t, r, Words(s));
    }
  }

  lemma {:induction false} JoinEnds(words: seq<string>)
    requires WordsOk(words) && (words[0] != "" || |words| > 1)
    ensures var s := Join(words);
      && s != "" && !IsSpace(s[|s| - 1])
      && (words[0] != "" ==> s[0] == words[0][0])
  {
    if |words| > 1 {
      assert WordsOk(words[1..]) by {
        forall i | 0 <= i < |words[1..]| ensures Word(words[1..][i]) && words[1..][i] != "" {
          assert words[1..][i] == words[i + 1];
        }
      }
      JoinEnds(words[1..]);
    } else {
      assert Word(words[0]);
    }
  }

  /** Joining words with single spaces and splitting them again gives the words. */
  lemma {:induction false} WordsJoin(words: seq<string>)
    requires WordsOk(words)
    ensures Words(Join(words)) == words
  {
    assert Word(words[0]);
    if |words| == 1 {
      WordAlone(words[0]);
    } else {
      var tail := words[1..];
      assert WordsOk(tail) by {
        forall i | 0 <= i < |tail| ensures Word(tail[i]) && tail[i] != "" {
          assert tail[i] == words[i + 1];
        }
      }
      JoinEnds(tail);
      assert tail[0] != "" && Word(tail[0]);
      WordsJoin(tail);
      WordThen(words[0], Join(tail));
    }
  }

  lemma {:induction false} KeptWords(words: seq<string>, dotted: seq<string>)
    requires words == [] || WordsOk(words)
    ensures var k := Kept(words, dotted); k == [] || WordsOk(k)
    ensures words != [] && words[0] != "" ==> forall w :: w in Kept(words, dotted) ==> w != ""
  {
    forall w | w in Kept(words, dotted) ensures Word(w) {
      var i :| 0 <= i < |words| && words[i] == w;
    }
    if words != [] {
      var k, t := Kept(words, dotted), Kept(words[1..], dotted);
      assert forall i :: 0 < i < |k| ==> k[i] in t;
      assert forall w :: w in t ==> w in words[1..];
    }
  }

  lemma {:induction false} KeptAgain(words: seq<string>, dotted: seq<string>)
    ensures Kept(Kept(words, dotted), dotted) == Kept(words, dotted)
  {
    if words != [] {
      KeptAgain(words[1..], dotted);
    }
  }

  // ------------------------------------------------------------- lines that a second run leaves alone

  /** The filter leaves the line as it is and keeps it. */
  predicate Settled(line: string, dotted: seq<string>) {
    WithoutDotted(line, dotted) == Some(line) && line != "" && line != "0"
  }

  lemma DeclaredWords(line: string)
    requires Declares(line)
    ensures var text := Trim(line);
      && |text| > 4 && (text[..4] == "ARG " || text[..4] == "ENV ")
      && !IsSpace(text[|text| - 1])
      && WordsOk(Words(text[4..]))
  {
    hide Words, WordsOk, Trim;
    var text := Trim(line);
    assert text != "";
    assert text[..4][3] == ' ' == text[3];
    WordsAreWords(text[4..]);
  }

  lemma HeadIsVisible(head: string)
    requires head == "ARG " || head == "ENV "
    ensures |head| == 4 && head[3] == ' ' && !IsSpace(head[0]) && !IsSpace(head[2]) && head != "0"
  {
  }

  lemma TrimLastSpace(s: string)
    requires |s| > 1 && IsSpace(s[|s| - 1]) && !IsSpace(s[0]) && !IsSpace(s[|s| - 2])
    ensures Trim(s) == TrimRight(s) == s[..|s| - 1]
  {
    var r := s[..|s| - 1];
    assert r[|r| - 1] == s[|s| - 2];
    assert TrimRight(s) == TrimRight(r) == r;
    assert r[0] == s[0];
  }

  lemma BareInstruction(head: string)
    requires head == "ARG " || head == "ENV "
    ensures !Declares(head) && head != "0" && TrimRight(head) == Trim(head) == head[..3]
  {
    hide TrimLeft, TrimRight, Trim;
    HeadIsVisible(head);
    TrimLastSpace(head);
  }

  /** An instruction with at least one visible argument is read back with these arguments. */
  lemma Reassembled(head: string, words: seq<string>)
    requires (head == "ARG " || head == "ENV ") && WordsOk(words) && (words[0] != "" || |words| > 1)
    ensures var r := head + Join(words);
      Trim(r) == r && Declares(r) && r[..4] == head && Words(r[4..]) == words
  {
    hide WordsOk, Words, Join, Trim, IsSpace;
    JoinEnds(words);
    WordsJoin(words);
    var tail := Join(words);
    var r := head + tail;
    assert r[|r| - 1] == tail[|tail| - 1];
    HeadIsVisible(head);
    assert r[0] == head[0];
    assert Trim(r) == r;
    assert r[..4] == head && r[4..] == tail;
  }

  /** The result for an ARG or ENV line, in terms of the words it keeps. */
  lemma DeclaredForm(line: string, dotted: seq<string>)
    requires Declares(line)
    ensures var text := Trim(line);
      && |text| > 4 && (text[..4] == "ARG " || text[..4] == "ENV ")
      && var kept := Kept(Words(text[4..]), dotted);
         && (kept != [] ==> WordsOk(kept))
         && Kept(kept, dotted) == kept
         && WithoutDotted(line, dotted) == if kept == [] then None else Some(text[..4] + Join(kept))
  {
    hide Words, Kept, Trim, Join, WordsOk, Declares;
    DeclaredWords(line);
    var text := Trim(line);
    KeptWords(Words(text[4..]), dotted);
    KeptAgain(Words(text[4..]), dotted);
  }

  /** Removing the dotted keys again removes nothing. */
  lemma WithoutDottedAgain(line: string, dotted: seq<string>)
    ensures match WithoutDotted(line, dotted)
      case None => true
      case Some(r) => WithoutDotted(r, dotted) == Some(r) && (Declares(line) ==> r != "" && r != "0")
  {
    if Declares(line) {
      DeclaredForm(line, dotted);
      var head := Trim(line)[..4];
      var kept := Kept(Words(Trim(line)[4..]), dotted);
      if kept != [] {
        KeptStays(head, kept, dotted);
      }
    }
  }

  /** An instruction that keeps all its words is left alone. */
  lemma KeptStays(head: string, kept: seq<string>, dotted: seq<string>)
    requires (head == "ARG " || head == "ENV ") && kept != [] && WordsOk(kept) && Kept(kept, dotted) == kept
    ensures var r := head + Join(kept); WithoutDotted(r, dotted) == Some(r) && r != "" && r != "0"
  {
    hide WordsOk, Kept, Words, Trim;
    var r := head + Join(kept);
    if kept[0] == "" && |kept| == 1 {
      BareInstruction(head);
      JoinBlank(head, kept);
    } else {
      Reassembled(head, kept);
      assert r[4..] == Join(kept);
    }
  }

  lemma JoinBlank(head: string, kept: seq<string>)
    requires |kept| == 1 && kept[0] == ""
    ensures head + Join(kept) == head
  {
  }

  lemma NotBare(line: string, head: string)
    requires (head == "ARG " || head == "ENV ") && |Trim(line)| > 4
    ensures line != head
  {
    hide Trim;
    BareInstruction(head);
  }

  lemma SettledIsTight(line: string, dotted: seq<string>)
    requires Settled(line, dotted) && Declares(line)
    ensures Trim(line) == line && TrimRight(line) == line
    ensures |line| > 4 && forall w :: w in Words(line[4..]) ==> Key(w) !in dotted
  {
    hide Words, Kept, Trim, TrimRight, Join, WordsOk;
    DeclaredForm(line, dotted);
    var text := Trim(line);
    var kept := Kept(Words(text[4..]), dotted);
    NotBare(line, text[..4]);
    if kept[0] == "" && |kept| == 1 {
      JoinBlank(text[..4], kept);
      assert false;
    } else {
      Reassembled(text[..4], kept);
      TightStays(line);
    }
  }

  lemma TightStays(s: string)
    requires Trim(s) == s
    ensures TrimRight(s) == s
  {
  }

  /** A settled ARG or ENV line ends visibly; any other settled line may lose spaces at its end. */
  lemma SettledTrimRight(line: string, dotted: seq<string>)
    requires Settled(line, dotted) && TrimRight(line) != "" && TrimRight(line) != "0"
    ensures Settled(TrimRight(line), dotted)
  {
    var r := TrimRight(line);
    assert TrimRight(r) == r;
    if Declares(line) {
      SettledIsTight(line, dotted);
    }
  }

  // ------------------------------------------------------------- mounts

  lemma {:induction false} TrimRightKeeps(s: string, part: string, i: nat)
    requires ContainsAt(s, part, i) && part != "" && !IsSpace(part[|part| - 1])
    ensures ContainsAt(TrimRight(s), part, i)
  {
    var r := TrimRight(s);
    assert s[i..i + |part|][|part| - 1] == s[i + |part| - 1];
    assert r[i..i + |part|] == s[i..i + |part|];
  }

  lemma {:induction false} MountsStart(keys: seq<string>)
    ensures StartsWith(Mounts(keys), MOUNT_MARK)
  {
    var list := MountList(keys + ["COOLIFY_BUILD_SECRETS_HASH"]);
    assert list != [] && StartsWith(list[0], MOUNT_MARK);
    assert Join(list)[..|MOUNT_MARK|] == list[0][..|MOUNT_MARK|];
  }

  /** A rewritten RUN line is a RUN line with a mount. */
  lemma RunLine(mounts: string, command: string)
    requires StartsWith(mounts, MOUNT_MARK)
    ensures var r := "RUN " + mounts + " " + command; IsRun(r) && Contains(r, MOUNT_MARK)
  {
    var r := "RUN " + mounts + " " + command;
    hide IsRun;
    assert r[4..4 + |mounts|] == mounts;
    assert r[4..4 + |MOUNT_MARK|] == mounts[..|MOUNT_MARK|];
    assert ContainsAt(r, MOUNT_MARK, 4);
    RunStart(r);
  }

  lemma RunStart(s: string)
    requires StartsWith(s, "RUN ")
    ensures IsRun(s)
  {
    assert s[..3] == s[..4][..3];
    assert s[0] == s[..4][0];
    assert TrimLeft(s) == s;
  }

  lemma WithMountsAgain(line: string, keys: seq<string>)
    ensures var r := WithMounts(line, keys);
      WithMounts(r, keys) == r && (IsRun(r) ==> Contains(r, MOUNT_MARK)) && (IsRun(line) ==> IsRun(r))
  {
    hide IsRun, Contains, Mounts, Trim;
    if !Contains(line, MOUNT_MARK) && IsRun(line) {
      MountsStart(keys);
      assert |TrimLeft(line)| >= 3 by { RunHasHead(line); }
      RunLine(Mounts(keys), Trim(TrimLeft(line)[3..]));
    }
  }

  lemma RunHasHead(line: string)
    requires IsRun(line)
    ensures |TrimLeft(line)| >= 3
  {
  }

  lemma WithMountsTrimRight(line: string, keys: seq<string>)
    requires WithMounts(line, keys) == line
    ensures WithMounts(TrimRight(line), keys) == TrimRight(line)
  {
    var r := TrimRight(line);
    WithMountsAgain(line, keys);
    if Contains(line, MOUNT_MARK) {
      var i: nat :| i <= |line| && ContainsAt(line, MOUNT_MARK, i);
      TrimRightKeeps(line, MOUNT_MARK, i);
    } else {
      TrimLeftOfTrimRight(line);
      assert !IsRun(r);
    }
  }

  /** Trimming the right end makes no line a RUN line. */
  lemma TrimLeftOfTrimRight(s: string)
    ensures IsRun(TrimRight(s)) ==> IsRun(s)
  {
    hide TrimLeft, TrimRight, IsSpace;
    var r := TrimRight(s);
    var t := TrimLeft(r);
    if IsRun(r) {
      var k := |r| - |t|;
      assert r[k] == t[0];
      TrimLeftSkips(s, k);
      SamePrefix(s, r, k);
    }
  }

  lemma SamePrefix(s: string, r: string, k: nat)
    requires |r| <= |s| && r == s[..|r|] && k <= |r| && StartsWith(r[k..], "RUN")
    ensures StartsWith(s[k..], "RUN")
  {
    assert r[k..][..3] == s[k..][..3];
  }

  lemma {:induction false} TrimLeftSkips(s: string, k: nat)
    requires k < |s| && !IsSpace(s[k]) && forall i :: 0 <= i < k ==> IsSpace(s[i])
    ensures TrimLeft(s) == s[k..]
  {
    if k > 0 {
      TrimLeftSkips(s[1..], k - 1);
    }
  }

  // ------------------------------------------------------------- the whole pipeline

  /** A line that the pipeline leaves as it is. */
  predicate Final(line: string, keys: seq<string>) {
    && WithMounts(line, keys) == line
    && (Dotted(keys) != [] ==> Settled(line, Dotted(keys)))
  }

  lemma MountedIsSettled(line: string, keys: seq<string>, dotted: seq<string>)
    requires Settled(line, dotted)
    ensures Settled(WithMounts(line, keys), dotted)
  {
    var r := WithMounts(line, keys);
    if r != line {
      assert r[0] == 'R';
      TrimKeepsHead(r);
      StartsWithHead(Trim(r), "ARG ");
      StartsWithHead(Trim(r), "ENV ");
    }
  }

  lemma LineSettles(line: string, dotted: seq<string>)
    ensures var r := FilterLine(line, dotted); r != [] ==> Settled(r[0], dotted)
  {
    WithoutDottedAgain(line, dotted);
  }

  lemma {:induction false} FilterSettles(lines: seq<string>, dotted: seq<string>)
    ensures var r := FilterDotted(lines, dotted); forall i :: 0 <= i < |r| ==> Settled(r[i], dotted)
  {
    hide FilterLine, WithoutDotted;
    if lines != [] {
      var first, rest := FilterLine(lines[0], dotted), FilterDotted(lines[1..], dotted);
      LineSettles(lines[0], dotted);
      FilterSettles(lines[1..], dotted);
      assert rest == FilterDotted(lines[1..], dotted);
      assert forall i :: 0 <= i < |rest| ==> Settled(rest[i], dotted);
    }
  }

  lemma PipelineIsFinal(lines: seq<string>, keys: seq<string>, i: nat)
    requires lines != [] && i < |Pipeline(lines, keys)|
    ensures Final(Pipeline(lines, keys)[i], keys)
  {
    hide Settled, WithMounts, FilterDotted, WithSyntax, Contains, IsRun, Dotted;
    var filtered := Filtered(WithSyntax(lines), keys);
    assert Pipeline(lines, keys)[i] == WithMounts(filtered[i], keys);
    WithMountsAgain(filtered[i], keys);
    if Dotted(keys) != [] {
      FilterSettles(WithSyntax(lines), Dotted(keys));
      assert filtered == FilterDotted(WithSyntax(lines), Dotted(keys));
      assert Settled(filtered[i], Dotted(keys));
      MountedIsSettled(filtered[i], keys, Dotted(keys));
    }
  }

  lemma SettledLineStays(line: string, dotted: seq<string>)
    requires Settled(line, dotted)
    ensures FilterLine(line, dotted) == [line]
  {
  }

  lemma {:induction false} FilterKeepsSettled(lines: seq<string>, dotted: seq<string>)
    requires forall i :: 0 <= i < |lines| ==> Settled(lines[i], dotted)
    ensures FilterDotted(lines, dotted) == lines
  {
    hide Settled, FilterLine;
    if lines != [] {
      SettledLineStays(lines[0], dotted);
      FilterKeepsSettled(lines[1..], dotted);
    }
  }

  /** A file of final lines is not written again. */
  lemma FinalIsNotModified(lines: seq<string>, keys: seq<string>)
    requires lines != [] && StartsWith(lines[0], SYNTAX_MARK)
    requires forall i :: 0 <= i < |lines| ==> Final(lines[i], keys)
    ensures !Modified(lines, keys)
  {
    if Dotted(keys) != [] {
      FilterKeepsSettled(lines, Dotted(keys));
    }
    assert MountRuns(lines, keys) == lines;
  }

  // ------------------------------------------------------------- the file and a second run

  lemma {:induction false} JoinOneLine(words: seq<string>)
    requires forall i :: 0 <= i < |words| ==> OneLine(words[i])
    ensures OneLine(Join(words))
  {
    if |words| > 1 {
      JoinOneLine(words[1..]);
    }
  }

  lemma {:induction false} MountListOneLine(keys: seq<string>)
    requires ValidKeys(keys)
    ensures forall i :: 0 <= i < |MountList(keys)| ==> OneLine(MountList(keys)[i])
  {
    if keys != [] {
      KeyChars(keys[0]);
      MountListOneLine(keys[1..]);
    }
  }

  lemma MountsOneLine(keys: seq<string>)
    requires ValidKeys(keys)
    ensures OneLine(Mounts(keys))
  {
    var all := keys + ["COOLIFY_BUILD_SECRETS_HASH"];
    assert ValidKeys(all);
    MountListOneLine(all);
    JoinOneLine(MountList(all));
  }

  lemma OneLineConcat(a: string, b: string)
    requires OneLine(a) && OneLine(b)
    ensures OneLine(a + b)
  {
  }

  lemma TrimOneLine(s: string)
    requires OneLine(s)
    ensures OneLine(Trim(s)) && OneLine(TrimLeft(s))
  {
    assert OneLine(TrimRight(s));
  }

  lemma OneLineFrom(s: string, k: nat)
    requires OneLine(s) && k <= |s|
    ensures OneLine(s[k..]) && OneLine(s[..k])
  {
  }

  lemma WithMountsOneLine(line: string, keys: seq<string>)
    requires ValidKeys(keys) && OneLine(line)
    ensures OneLine(WithMounts(line, keys))
  {
    hide OneLine, Mounts, Contains, Trim, TrimLeft, ValidKeys;
    if IsRun(line) {
      var rest := TrimLeft(line)[3..];
      MountsOneLine(keys);
      TrimOneLine(line);
      OneLineFrom(TrimLeft(line), 3);
      TrimOneLine(rest);
      assert OneLine("RUN ") by { WordLine("RUN "); }
      WordLine(" ");
      OneLineConcat("RUN ", Mounts(keys));
      OneLineConcat("RUN " + Mounts(keys), " ");
      OneLineConcat("RUN " + Mounts(keys) + " ", Trim(rest));
    }
  }

  lemma WordLine(s: string)
    requires s == "RUN " || s == " " || s == "ARG " || s == "ENV "
    ensures OneLine(s)
  {
  }

  lemma {:induction false} KeptOneLine(words: seq<string>, dotted: seq<string>)
    requires WordsOk(words)
    ensures OneLine(Join(Kept(words, dotted)))
  {
    KeptWords(words, dotted);
    var kept := Kept(words, dotted);
    forall i | 0 <= i < |kept| ensures OneLine(kept[i]) {
      assert Word(kept[i]);
    }
    JoinOneLine(kept);
  }

  lemma FilterLineOneLine(line: string, dotted: seq<string>)
    requires OneLine(line)
    ensures var r := FilterLine(line, dotted); r != [] ==> OneLine(r[0])
  {
    hide OneLine, Declares, Trim, Words, Kept, Join, WordsOk;
    if Declares(line) {
      DeclaredWords(line);
      var head, words := Trim(line)[..4], Words(Trim(line)[4..]);
      WordLine(head);
      KeptOneLine(words, dotted);
      OneLineConcat(head, Join(Kept(words, dotted)));
    }
  }

  lemma {:induction false} FilterOneLine(lines: seq<string>, dotted: seq<string>)
    requires forall i :: 0 <= i < |lines| ==> OneLine(lines[i])
    ensures var r := FilterDotted(lines, dotted); forall i :: 0 <= i < |r| ==> OneLine(r[i])
  {
    hide FilterLine, OneLine;
    if lines != [] {
      var rest := FilterDotted(lines[1..], dotted);
      FilterLineOneLine(lines[0], dotted);
      FilterOneLine(lines[1..], dotted);
      assert rest == FilterDotted(lines[1..], dotted);
      assert forall i :: 0 <= i < |rest| ==> OneLine(rest[i]);
    }
  }

  lemma WithSyntaxLines(lines: seq<string>)
    requires Lines(lines)
    ensures Lines(WithSyntax(lines))
  {
    var start := WithSyntax(lines);
    forall i | 0 <= i < |start| ensures OneLine(start[i]) {
      if start != lines && i > 0 { assert start[i] == lines[i - 1]; }
    }
  }

  lemma FilteredLines(lines: seq<string>, keys: seq<string>)
    requires Lines(lines)
    ensures forall i :: 0 <= i < |Filtered(lines, keys)| ==> OneLine(Filtered(lines, keys)[i])
  {
    hide OneLine, FilterDotted;
    FilterOneLine(lines, Dotted(keys));
    assert Filtered(lines, keys) == if Dotted(keys) == [] then lines else FilterDotted(lines, Dotted(keys));
  }

  lemma PipelineLines(lines: seq<string>, keys: seq<string>)
    requires Lines(lines) && ValidKeys(keys)
    ensures Lines(Pipeline(lines, keys))
  {
    hide OneLine, ValidKeys, WithSyntax, FilterDotted, WithMounts, Dotted;
    PipelineHead(lines, keys);
    WithSyntaxLines(lines);
    var start := WithSyntax(lines);
    FilteredLines(start, keys);
    var filtered, out := Filtered(start, keys), Pipeline(lines, keys);
    forall i | 0 <= i < |out| ensures OneLine(out[i]) {
      WithMountsOneLine(filtered[i], keys);
    }
  }

  /** What a second run reads: the lines that the first run wrote, without the spaces at the end. */
  lemma SecondRead(lines: seq<string>, keys: seq<string>)
    requires Lines(lines) && ValidKeys(keys)
    ensures var out := Pipeline(lines, keys); out != [] && Explode(Trim(Implode(out))) == TrimTail(out)
    ensures var read := TrimTail(Pipeline(lines, keys));
      Lines(read) && StartsWith(read[0], SYNTAX_MARK) && read[|read| - 1] != ""
  {
    var out := Pipeline(lines, keys);
    PipelineLines(lines, keys);
    PipelineHead(lines, keys);
    StartsWithHead(out[0], SYNTAX_MARK);
    ReadBackLoose(out);
    var read := TrimTail(out);
    if |read| == 1 {
      assert ContainsAt(out[0], SYNTAX_MARK, 0);
      TrimRightKeeps(out[0], SYNTAX_MARK, 0);
      assert read[0][0..0 + |SYNTAX_MARK|] == SYNTAX_MARK;
    } else {
      assert read[0] == read[..|read| - 1][0] == out[0];
    }
  }

  lemma FinalTrimRight(line: string, keys: seq<string>)
    requires Final(line, keys) && TrimRight(line) != "" && (Dotted(keys) == [] || TrimRight(line) != "0")
    ensures Final(TrimRight(line), keys)
  {
    hide Settled, WithMounts, Dotted, TrimRight;
    WithMountsTrimRight(line, keys);
    if Dotted(keys) != [] {
      SettledTrimRight(line, Dotted(keys));
    }
  }

  /** All lines that a second run reads are final, with one exception: a last line that the trimmed end
      of the file turns into "0", which the filter for dotted keys then drops. */
  lemma TailIsFinal(out: seq<string>, keys: seq<string>, i: nat)
    requires out != [] && i < |TrimTail(out)| && Final(out[i], keys)
    requires TrimTail(out)[|TrimTail(out)| - 1] != ""
    ensures var read := TrimTail(out);
      Final(read[i], keys) || (Dotted(keys) != [] && i == |read| - 1 && read[i] == "0")
  {
    TrimTailAt(out, i);
    hide Final, TrimTail, TrimRight, Dotted;
    if i == |TrimTail(out)| - 1 && (Dotted(keys) == [] || TrimRight(out[i]) != "0") {
      FinalTrimRight(out[i], keys);
    }
  }

  lemma SecondReadIsFinal(lines: seq<string>, keys: seq<string>, i: nat)
    requires Lines(lines) && ValidKeys(keys)
    requires Pipeline(lines, keys) != [] && i < |TrimTail(Pipeline(lines, keys))|
    ensures var read := TrimTail(Pipeline(lines, keys));
      Final(read[i], keys) || (Dotted(keys) != [] && i == |read| - 1 && read[i] == "0")
  {
    hide Final, Pipeline, TrimTail, TrimRight, Explode, Trim, StartsWith, OneLine, ValidKeys, Dotted, Implode;
    SecondRead(lines, keys);
    PipelineIsFinal(lines, keys, i);
    TailIsFinal(Pipeline(lines, keys), keys, i);
  }

  function Last(lines: seq<string>): string
    requires lines != []
  {
    lines[|lines| - 1]
  }

  lemma {:induction false} FilterSnoc(lines: seq<string>, line: string, dotted: seq<string>)
    ensures FilterDotted(lines + [line], dotted) == FilterDotted(lines, dotted) + FilterLine(line, dotted)
  {
    hide FilterLine;
    if lines == [] {
      assert [line][1..] == [];
    } else {
      assert (lines + [line])[1..] == lines[1..] + [line];
      FilterSnoc(lines[1..], line, dotted);
    }
  }

  lemma NotDeclared(line: string)
    requires line != "" && !IsSpace(line[0]) && line[0] != 'A' && line[0] != 'E'
    ensures !Declares(line)
  {
    TrimKeepsHead(line);
    hide Trim, IsSpace;
    StartsWithHead(Trim(line), "ARG ");
    StartsWithHead(Trim(line), "ENV ");
  }

  lemma ZeroIsDropped(dotted: seq<string>)
    ensures FilterLine("0", dotted) == []
  {
    NotDeclared("0");
    hide Declares, Words, Kept, Join;
  }

  /** With dotted keys, a file of final lines that ends in a line "0" loses that line. */
  lemma ZeroLineIsLost(read: seq<string>, keys: seq<string>)
    requires |read| > 1 && Dotted(keys) != [] && StartsWith(read[0], SYNTAX_MARK) && Last(read) == "0"
    requires forall i :: 0 <= i < |read| - 1 ==> Final(read[i], keys)
    ensures Modified(read, keys) && Pipeline(read, keys) == read[..|read| - 1]
  {
    hide Settled, WithMounts, StartsWith, FilterLine;
    var n := |read| - 1;
    var front := read[..n];
    var dotted := Dotted(keys);
    assert read == front + ["0"];
    FilterSnoc(front, "0", dotted);
    ZeroIsDropped(dotted);
    FilterKeepsSettled(front, dotted);
    assert FilterDotted(read, dotted) == front;
    assert MountRuns(front, keys) == front;
  }

  lemma TrimIsShorter(s: string)
    ensures |Trim(s)| <= |s|
  {
  }

  lemma SecondRunOnFinal(written: string, keys: seq<string>)
    requires var read := Explode(Trim(written)); forall i :: 0 <= i < |read| ==> Final(read[i], keys)
    requires StartsWith(Explode(Trim(written))[0], SYNTAX_MARK)
    ensures SecretsFile(written, keys) == written
  {
    hide Final, Pipeline, Explode, Trim, Dotted, Modified, StartsWith;
    FinalIsNotModified(Explode(Trim(written)), keys);
  }

  lemma SecondRunOnZero(written: string, keys: seq<string>)
    requires Dotted(keys) != []
    requires var read := Explode(Trim(written));
      && (forall i :: 0 <= i < |read| - 1 ==> Final(read[i], keys))
      && StartsWith(read[0], SYNTAX_MARK) && Last(read) == "0"
    ensures SecretsFile(written, keys) != written
  {
    assert keys != [];
    hide Final, Pipeline, Explode, Trim, Dotted, Modified, StartsWith;
    var read := Explode(Trim(written));
    StartsWithHead(read[0], SYNTAX_MARK);
    ZeroLineIsLost(read, keys);
    ImplodeSnoc(read);
    TrimIsShorter(written);
    ImplodeExplode(Trim(written));
    assert |SecretsFile(written, keys)| < |written|;
  }

  /** A second run on a written file, in terms of the lines it reads. */
  lemma SecondRun(lines: seq<string>, keys: seq<string>)
    requires Lines(lines) && ValidKeys(keys)
    ensures Pipeline(lines, keys) != []
    ensures var written := Implode(Pipeline(lines, keys)); var read := Explode(Trim(written));
      SecretsFile(written, keys) == written <==> !(Dotted(keys) != [] && Last(read) == "0")
  {
    hide Final, Pipeline, TrimTail, Explode, Trim, Dotted, Modified, ValidKeys, StartsWith, OneLine, SecretsFile,
      Implode;
    SecondRead(lines, keys);
    var written, read := Implode(Pipeline(lines, keys)), TrimTail(Pipeline(lines, keys));
    forall i | 0 <= i < |read|
      ensures Final(read[i], keys) || (Dotted(keys) != [] && i == |read| - 1 && read[i] == "0")
    {
      SecondReadIsFinal(lines, keys, i);
    }
    if Dotted(keys) != [] && Last(read) == "0" {
      SecondRunOnZero(written, keys);
    } else {
      SecondRunOnFinal(written, keys);
    }
  }

  // ------------------------------------------------------------- which files a second run changes

  /** The first run removes the line, or a second run does not read it at the end of the file: it is blank,
      falsy, or an ARG or ENV line with dotted keys only. */
  predicate Vanishes(line: string, dotted: seq<string>) {
    || TrimRight(line) == "" || line == "0"
    || (Declares(line) && forall w :: w in Words(Trim(line)[4..]) ==> Key(w) in dotted)
  }

  predicate LooseZero(line: string) {
    TrimRight(line) == "0" && line != "0"
  }

  /** A zero with spaces behind it, and nothing after it that stays. */
  predicate ZeroAt(lines: seq<string>, dotted: seq<string>, i: nat) {
    i < |lines| && LooseZero(lines[i]) && forall k :: i < k < |lines| ==> Vanishes(lines[k], dotted)
  }

  ghost predicate EndsInZero(lines: seq<string>, dotted: seq<string>) {
    exists i: nat :: ZeroAt(lines, dotted, i)
  }

  lemma EndsInZeroSnoc(front: seq<string>, line: string, dotted: seq<string>)
    ensures EndsInZero(front + [line], dotted) <==>
      LooseZero(line) || (Vanishes(line, dotted) && EndsInZero(front, dotted))
  {
    hide LooseZero, Vanishes;
    var n, lines := |front|, front + [line];
    if EndsInZero(lines, dotted) {
      var i: nat :| ZeroAt(lines, dotted, i);
      if i < n {
        assert Vanishes(lines[n], dotted);
        forall k | i < k < n ensures Vanishes(front[k], dotted) { assert lines[k] == front[k]; }
        assert ZeroAt(front, dotted, i);
      }
    }
    if LooseZero(line) {
      assert ZeroAt(lines, dotted, n);
    } else if Vanishes(line, dotted) && EndsInZero(front, dotted) {
      var i: nat :| ZeroAt(front, dotted, i);
      forall k | i < k < |lines| ensures Vanishes(lines[k], dotted) {}
      assert ZeroAt(lines, dotted, i);
    }
  }

  lemma EndsInZeroCons(line: string, lines: seq<string>, dotted: seq<string>)
    requires !LooseZero(line)
    ensures EndsInZero([line] + lines, dotted) <==> EndsInZero(lines, dotted)
  {
    hide LooseZero, Vanishes;
    var all := [line] + lines;
    if EndsInZero(all, dotted) {
      var i: nat :| ZeroAt(all, dotted, i);
      forall k | i - 1 < k < |lines| ensures Vanishes(lines[k], dotted) { assert lines[k] == all[k + 1]; }
      assert ZeroAt(lines, dotted, i - 1);
    }
    if EndsInZero(lines, dotted) {
      var i: nat :| ZeroAt(lines, dotted, i);
      assert ZeroAt(all, dotted, i + 1);
    }
  }

  /** What a line becomes in the pipeline with dotted keys. */
  function LineOut(line: string, keys: seq<string>): seq<string> {
    MountRuns(FilterLine(line, Dotted(keys)), keys)
  }

  lemma VisibleHead(line: string, c: char)
    requires line != "" && line[0] == c && !IsSpace(c) && c != '0'
    ensures TrimRight(line) != "" && TrimRight(line) != "0"
  {
  }

  lemma MountKeepsEnd(line: string, keys: seq<string>)
    ensures var r := WithMounts(line, keys);
      && (TrimRight(r) == "" <==> TrimRight(line) == "") && (TrimRight(r) == "0" <==> TrimRight(line) == "0")
  {
    var r := WithMounts(line, keys);
    if r != line {
      hide TrimRight, Trim, Mounts, Contains;
      RunIsVisible(line);
      VisibleHead(r, 'R');
    }
  }

  lemma RunIsVisible(line: string)
    requires IsRun(line)
    ensures TrimRight(line) != "" && TrimRight(line) != "0"
  {
    hide TrimRight;
    StartsWithHead(TrimLeft(line), "RUN");
    var k := |line| - |TrimLeft(line)|;
    assert line[k] == TrimLeft(line)[0] == 'R';
  }

  lemma DeclaredIsVisible(line: string)
    requires Declares(line)
    ensures TrimRight(line) != "" && TrimRight(line) != "0"
  {
    hide TrimLeft, Words;
    var t := TrimRight(line);
    DeclaredWords(line);
    assert Trim(line) == TrimLeft(t);
  }

  lemma DeclaredOut(line: string, dotted: seq<string>)
    requires Declares(line)
    ensures var r := FilterLine(line, dotted);
      (r == [] <==> Vanishes(line, dotted)) && (r != [] ==> TrimRight(r[0]) != "" && TrimRight(r[0]) != "0")
  {
    hide Words, Kept, Trim, TrimRight, Join, WordsOk, Declares;
    DeclaredIsVisible(line);
    DeclaredForm(line, dotted);
    var text := Trim(line);
    var words := Words(text[4..]);
    var kept := Kept(words, dotted);
    DeclaredWords(line);
    KeptNothing(words, dotted);
    if kept != [] {
      KeptStays(text[..4], kept, dotted);
      HeadIsVisible(text[..4]);
      VisibleHead(text[..4] + Join(kept), text[0]);
      assert line != "0" by { hide TrimRight; ZeroIsDropped(dotted); ZeroNotDeclared(); }
    }
  }

  lemma ZeroNotDeclared()
    ensures !Declares("0")
  {
    NotDeclared("0");
  }

  lemma KeptNothing(words: seq<string>, dotted: seq<string>)
    requires words != []
    ensures Kept(words, dotted) == [] <==> forall w :: w in words ==> Key(w) in dotted
  {
    if Kept(words, dotted) != [] {
      assert Kept(words, dotted)[0] in words;
    } else {
      forall w | w in words ensures Key(w) in dotted {
        assert w !in Kept(words, dotted);
      }
    }
  }

  /** A line is dropped, is blank, becomes the zero at the end, or ends the file visibly. */
  lemma LineOutEnds(line: string, keys: seq<string>)
    ensures var r, dotted := LineOut(line, keys), Dotted(keys);
      && |r| <= 1
      && (r == [] ==> Vanishes(line, dotted) && !LooseZero(line))
      && (r != [] && TrimRight(r[0]) == "" ==> Vanishes(line, dotted) && !LooseZero(line))
      && (r != [] && TrimRight(r[0]) != "" ==> !Vanishes(line, dotted) && (TrimRight(r[0]) == "0" <==> LooseZero(line)))
  {
    var dotted := Dotted(keys);
    var f := FilterLine(line, dotted);
    hide Dotted, WithMounts, Trim, TrimRight, Words;
    assert f != [] ==> LineOut(line, keys) == [WithMounts(f[0], keys)];
    if f != [] {
      MountKeepsEnd(f[0], keys);
    }
    if Declares(line) {
      DeclaredOut(line, dotted);
      DeclaredIsVisible(line);
    } else {
      assert f == if line == "" || line == "0" then [] else [line];
      assert TrimRight("") == "" && TrimRight("0") == "0" by { ZeroEnds(); }
    }
  }

  lemma ZeroEnds()
    ensures TrimRight("") == "" && TrimRight("0") == "0"
  {
  }

  lemma {:induction false} MountRunsConcat(a: seq<string>, b: seq<string>, keys: seq<string>)
    ensures MountRuns(a + b, keys) == MountRuns(a, keys) + MountRuns(b, keys)
  {
    hide WithMounts;
  }

  /** The lines that go out for lines that start with the syntax line. */
  lemma OutSnoc(front: seq<string>, line: string, keys: seq<string>)
    ensures MountRuns(FilterDotted(front + [line], Dotted(keys)), keys) ==
      MountRuns(FilterDotted(front, Dotted(keys)), keys) + LineOut(line, keys)
  {
    hide WithMounts, FilterLine;
    FilterSnoc(front, line, Dotted(keys));
    MountRunsConcat(FilterDotted(front, Dotted(keys)), FilterLine(line, Dotted(keys)), keys);
  }

  lemma OutHead(lines: seq<string>, keys: seq<string>)
    requires lines != [] && StartsWith(lines[0], SYNTAX_MARK)
    ensures var out := MountRuns(FilterDotted(lines, Dotted(keys)), keys); out != [] && out[0] == lines[0]
  {
    SyntaxLineStays(lines[0], Dotted(keys), keys);
  }

  lemma SyntaxIsNoZero(line: string)
    requires StartsWith(line, SYNTAX_MARK)
    ensures !LooseZero(line) && TrimRight(line) != "0" && TrimRight(line) != ""
  {
    StartsWithHead(line, SYNTAX_MARK);
    VisibleHead(line, '#');
  }

  lemma TrimTailSnoc(front: seq<string>, line: string)
    requires front != []
    ensures Last(TrimTail(front + [line])) == if TrimRight(line) == "" then Last(TrimTail(front)) else TrimRight(line)
  {
    hide TrimRight;
    assert (front + [line])[..|front|] == front;
  }

  /** The last line that a second run reads is "0" exactly if the input ends in a loose zero. */
  lemma {:induction false} OutEndsInZero(lines: seq<string>, keys: seq<string>)
    requires lines != [] && StartsWith(lines[0], SYNTAX_MARK)
    ensures var out := MountRuns(FilterDotted(lines, Dotted(keys)), keys);
      out != [] && (Last(TrimTail(out)) == "0" <==> EndsInZero(lines, Dotted(keys)))
    decreases |lines|
  {
    var n := |lines| - 1;
    var front, line, dotted := lines[..n], lines[n], Dotted(keys);
    assert lines == front + [line];
    hide Dotted, FilterDotted, MountRuns, TrimTail, TrimRight, StartsWith, Vanishes, LooseZero, EndsInZero;
    OutHead(lines, keys);
    EndsInZeroSnoc(front, line, dotted);
    OutSnoc(front, line, keys);
    LineOutEnds(line, keys);
    var out := MountRuns(FilterDotted(lines, dotted), keys);
    if n == 0 {
      SyntaxIsNoZero(line);
      SyntaxOut(line, keys);
    } else {
      OutEndsInZero(front, keys);
      var before, r := MountRuns(FilterDotted(front, dotted), keys), LineOut(line, keys);
      if r == [] {
        assert out == before;
      } else {
        assert r == [r[0]];
        TrimTailSnoc(before, r[0]);
      }
    }
  }

  lemma SyntaxOut(line: string, keys: seq<string>)
    requires StartsWith(line, SYNTAX_MARK)
    ensures MountRuns(FilterDotted([line], Dotted(keys)), keys) == [line] && TrimTail([line]) == [TrimRight(line)]
    ensures !EndsInZero([], Dotted(keys))
  {
    SyntaxLineStays(line, Dotted(keys), keys);
    assert FilterDotted([line][1..], Dotted(keys)) == [];
  }

  /** A file that ends in a loose zero has lines behind it that the first run removes, so it is written. */
  lemma ZeroIsModified(content: string, keys: seq<string>)
    requires Dotted(keys) != [] && EndsInZero(Explode(Trim(content)), Dotted(keys))
    ensures Modified(Explode(Trim(content)), keys)
  {
    var lines, dotted := Explode(Trim(content)), Dotted(keys);
    var start := WithSyntax(lines);
    hide *;
    LastVanishes(content, dotted);
    LastOfSyntax(lines);
    DropShortens(start, dotted);
    ShorterIsModified(lines, keys);
  }

  lemma LastOfSyntax(lines: seq<string>)
    requires lines != []
    ensures Last(WithSyntax(lines)) == Last(lines)
  {
  }

  lemma ShorterIsModified(lines: seq<string>, keys: seq<string>)
    requires lines != [] && Dotted(keys) != []
    requires |FilterDotted(WithSyntax(lines), Dotted(keys))| < |WithSyntax(lines)|
    ensures Modified(lines, keys)
  {
    hide Dotted, FilterDotted, MountRuns, WithSyntax;
  }

  lemma LastVanishes(content: string, dotted: seq<string>)
    requires EndsInZero(Explode(Trim(content)), dotted)
    ensures FilterLine(Last(Explode(Trim(content))), dotted) == []
  {
    var lines := Explode(Trim(content));
    hide Explode, Trim, Vanishes, LooseZero, FilterLine, IsSpace;
    var i: nat :| ZeroAt(lines, dotted, i);
    if Trim(content) == "" {
      BlankHasNoZero(lines, i);
    }
    ReadIsTight(content);
    TightEnd(Last(lines));
    TightIsNoLooseZero(Last(lines));
    assert Vanishes(lines[|lines| - 1], dotted);
    LastIsDropped(Last(lines), dotted);
  }

  lemma TightIsNoLooseZero(line: string)
    requires TrimRight(line) == line
    ensures !LooseZero(line)
  {
  }

  lemma BlankHasNoZero(lines: seq<string>, i: nat)
    requires i < |lines| && LooseZero(lines[i])
    ensures lines != Explode("")
  {
  }

  lemma TightEnd(s: string)
    requires s != "" && !IsSpace(s[|s| - 1])
    ensures TrimRight(s) == s
  {
  }

  lemma LastIsDropped(line: string, dotted: seq<string>)
    requires Vanishes(line, dotted) && line != "" && TrimRight(line) == line
    ensures FilterLine(line, dotted) == []
  {
    if Declares(line) {
      DeclaredOut(line, dotted);
    }
  }

  lemma {:induction false} FilterIsShorter(lines: seq<string>, dotted: seq<string>)
    ensures |FilterDotted(lines, dotted)| <= |lines|
  {
    hide FilterLine;
    if lines != [] {
      FilterIsShorter(lines[1..], dotted);
    }
  }

  lemma DropShortens(lines: seq<string>, dotted: seq<string>)
    requires lines != [] && FilterLine(Last(lines), dotted) == []
    ensures |FilterDotted(lines, dotted)| < |lines|
  {
    hide FilterLine;
    var n := |lines| - 1;
    assert lines == lines[..n] + [lines[n]];
    FilterSnoc(lines[..n], lines[n], dotted);
    FilterIsShorter(lines[..n], dotted);
  }

  /** The rewrite is idempotent on every file but one kind: with a dotted key, a file in which a zero with
      spaces behind it is followed only by lines that vanish. The first run leaves that line at the end, where
      it is read back as "0", and "0" is falsy, so that a second run drops it. */
  lemma SecretsFileIdempotentUnlessZero(content: string, keys: seq<string>)
    requires ValidKeys(keys)
    ensures var written := SecretsFile(content, keys);
      SecretsFile(written, keys) == written <==>
        !(Dotted(keys) != [] && EndsInZero(Explode(Trim(content)), Dotted(keys)))
  {
    var lines, dotted := Explode(Trim(content)), Dotted(keys);
    assert dotted != [] ==> keys != [];
    hide Explode, Trim, Dotted, Modified, ValidKeys, Pipeline, EndsInZero, OneLine, SecretsFile;
    SecondRunOf(content, keys);
    if dotted != [] {
      if EndsInZero(lines, dotted) {
        ZeroIsModified(content, keys);
      }
      PipelineEndsInZero(lines, keys);
    }
  }

  lemma SecondRunOf(content: string, keys: seq<string>)
    requires ValidKeys(keys)
    ensures var lines, written := Explode(Trim(content)), SecretsFile(content, keys);
      && Pipeline(lines, keys) != []
      && (SecretsFile(written, keys) == written <==>
            !(&& keys != [] && Modified(lines, keys) && Dotted(keys) != []
              && Last(TrimTail(Pipeline(lines, keys))) == "0"))
  {
    var lines := Explode(Trim(content));
    hide Explode, Trim, Dotted, Modified, ValidKeys, Pipeline, OneLine, TrimTail, Implode;
    SecondRun(lines, keys);
    SecondRead(lines, keys);
  }

  lemma PipelineEndsInZero(lines: seq<string>, keys: seq<string>)
    requires lines != [] && Dotted(keys) != []
    ensures Pipeline(lines, keys) != []
    ensures Last(TrimTail(Pipeline(lines, keys))) == "0" <==> EndsInZero(lines, Dotted(keys))
  {
    hide Dotted, FilterDotted, MountRuns, TrimTail, EndsInZero;
    OutEndsInZero(WithSyntax(lines), keys);
    if WithSyntax(lines) != lines {
      SyntaxIsNoZero(SYNTAX_LINE);
      EndsInZeroCons(SYNTAX_LINE, lines, Dotted(keys));
    }
  }

  /** Without dotted keys the rewrite is idempotent. */
  lemma SecretsFileIdempotent(content: string, keys: seq<string>)
    requires ValidKeys(keys) && Dotted(keys) == []
    ensures SecretsFile(SecretsFile(content, keys), keys) == SecretsFile(content, keys)
  {
    SecretsFileIdempotentUnlessZero(content, keys);
  }

  // ------------------------------------------------------------- what the rewrite does to the lines

  /** In a file that was written, every RUN line has a secret mount, and no ARG or ENV line names a
      dotted key. */
  lemma EveryRunMounts(lines: seq<string>, keys: seq<string>, i: nat)
    requires lines != [] && i < |Pipeline(lines, keys)|
    ensures var line := Pipeline(lines, keys)[i];
      && (IsRun(line) ==> Contains(line, MOUNT_MARK))
      && (Declares(line) && Dotted(keys) != [] ==>
            |line| > 4 && forall w :: w in Words(line[4..]) ==> Key(w) !in Dotted(keys))
  {
    var line := Pipeline(lines, keys)[i];
    PipelineIsFinal(lines, keys, i);
    WithMountsAgain(line, keys);
    if Declares(line) && Dotted(keys) != [] {
      SettledIsTight(line, Dotted(keys));
    }
  }

  /** The lines that the rewrite may touch: RUN, ARG and ENV lines and falsy lines. */
  predicate Touchable(line: string) {
    || IsRun(line) || StartsWith(Trim(line), "ARG") || StartsWith(Trim(line), "ENV")
    || line == "" || line == "0"
  }

  function Others(lines: seq<string>): seq<string> {
    if lines == [] then []
    else if Touchable(lines[0]) then Others(lines[1..])
    else [lines[0]] + Others(lines[1..])
  }

  lemma {:induction false} OthersConcat(a: seq<string>, b: seq<string>)
    ensures Others(a + b) == Others(a) + Others(b)
  {
    hide Touchable;
    if a == [] {
      assert a + b == b;
    } else {
      assert (a + b)[1..] == a[1..] + b;
      OthersConcat(a[1..], b);
    }
  }

  lemma HeadTouchable(line: string, head: string)
    requires head == "ARG " || head == "ENV "
    requires StartsWith(Trim(line), head[..3])
    ensures Touchable(line)
  {
    hide IsRun, Trim;
    assert head[..3] == "ARG" || head[..3] == "ENV";
  }

  lemma InstructionTouchable(head: string, kept: seq<string>)
    requires (head == "ARG " || head == "ENV ") && WordsOk(kept) && kept != []
    ensures Touchable(head + Join(kept))
  {
    hide WordsOk, Touchable, Trim, Words;
    var r := head + Join(kept);
    if kept[0] == "" && |kept| == 1 {
      BareInstruction(head);
      assert r == head;
    } else {
      Reassembled(head, kept);
      assert r[..3] == r[..4][..3];
    }
    HeadTouchable(r, head);
  }

  lemma DeclaredTouches(line: string, dotted: seq<string>)
    requires Declares(line)
    ensures Touchable(line)
    ensures var r := FilterLine(line, dotted); r != [] ==> Touchable(r[0])
  {
    hide Words, Kept, Trim, Join, WordsOk, Touchable, Declares;
    DeclaredForm(line, dotted);
    var text := Trim(line);
    assert text[..3] == text[..4][..3];
    HeadTouchable(line, text[..4]);
    var kept := Kept(Words(text[4..]), dotted);
    if kept != [] {
      InstructionTouchable(text[..4], kept);
    }
  }

  lemma FilterLineTouches(line: string, dotted: seq<string>)
    ensures Others(FilterLine(line, dotted)) == Others([line])
  {
    if Declares(line) {
      DeclaredTouches(line, dotted);
      hide FilterLine, Touchable;
    } else {
      assert FilterLine(line, dotted) == if line == "" || line == "0" then [] else [line];
    }
  }

  lemma {:induction false} FilterKeepsOthers(lines: seq<string>, dotted: seq<string>)
    ensures Others(FilterDotted(lines, dotted)) == Others(lines)
  {
    hide FilterLine, Touchable;
    if lines != [] {
      FilterLineTouches(lines[0], dotted);
      FilterKeepsOthers(lines[1..], dotted);
      OthersConcat(FilterLine(lines[0], dotted), FilterDotted(lines[1..], dotted));
      OthersConcat([lines[0]], lines[1..]);
      assert [lines[0]] + lines[1..] == lines;
    }
  }

  lemma {:induction false} MountsKeepOthers(lines: seq<string>, keys: seq<string>)
    ensures Others(MountRuns(lines, keys)) == Others(lines)
  {
    if lines != [] {
      WithMountsAgain(lines[0], keys);
      assert MountRuns(lines, keys)[1..] == MountRuns(lines[1..], keys);
      hide IsRun, Contains;
      MountsKeepOthers(lines[1..], keys);
    }
  }

  /** Apart from the syntax line, every line that is no RUN, ARG, ENV or falsy line is still there,
      unchanged and in its place among these. */
  lemma OtherLinesUntouched(lines: seq<string>, keys: seq<string>)
    requires lines != []
    ensures Others(Pipeline(lines, keys)) == Others(WithSyntax(lines))
  {
    MountsKeepOthers(Filtered(WithSyntax(lines), keys), keys);
    FilterKeepsOthers(WithSyntax(lines), Dotted(keys));
  }

  lemma MountsChange(line: string, keys: seq<string>)
    ensures WithMounts(line, keys) == line <==> !IsRun(line) || Contains(line, MOUNT_MARK)
  {
    hide IsRun, Contains, Mounts, Trim, TrimLeft;
    WithMountsAgain(line, keys);
    if IsRun(line) {
      RunHasHead(line);
    }
  }

  /** Without dotted keys every line stays where it is, ARG, ENV and empty lines too, and the RUN lines that
      have no secret mount are the only ones that change. */
  lemma OnlyRunLinesChange(lines: seq<string>, keys: seq<string>, i: nat)
    requires lines != [] && Dotted(keys) == [] && i < |WithSyntax(lines)|
    ensures |Pipeline(lines, keys)| == |WithSyntax(lines)|
    ensures var line := WithSyntax(lines)[i];
      Pipeline(lines, keys)[i] == line <==> !IsRun(line) || Contains(line, MOUNT_MARK)
  {
    hide IsRun, Contains, Dotted, WithSyntax, WithMounts, FilterDotted;
    MountsChange(WithSyntax(lines)[i], keys);
  }
}
