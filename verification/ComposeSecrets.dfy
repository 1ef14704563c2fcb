/** The Dockerfile of a Compose service with build secrets: the ARG injection and then the rewrite for secret
    mounts, on the same file. Services that share a Dockerfile run both again on what was written. */
module ComposeSecrets {
  import opened ComposeArgs
  import opened DockerfileText
  import opened SecretMounts
  import opened SecretMountsTwice
  import opened StageArgs
  import opened Wrappers

  /** A service whose Dockerfile is empty, "0" or without a FROM line is passed over, and so is every service
      without variables. */
  predicate Skipped(content: string, keys: seq<string>) {
    content == "" || content == "0" || keys == [] || !HasFrom(Explode(Trim(content)))
  }

  function ServiceFile(content: string, keys: seq<string>): string {
    if Skipped(content, keys) then content else SecretsFile(InjectedFile(content, keys), keys)
  }

  function Plain(keys: seq<string>): (r: seq<string>)
    ensures forall key :: key in r <==> key in keys && '.' !in key
  {
    if keys == [] then []
    else if '.' in keys[0] then Plain(keys[1..])
    else [keys[0]] + Plain(keys[1..])
  }

  lemma {:induction false} DottedKeys(keys: seq<string>)
    ensures forall key :: key in Dotted(keys) <==> key in keys && '.' in key
    ensures Dotted(keys) == [] ==> Plain(keys) == keys
  {
    if keys != [] {
      DottedKeys(keys[1..]);
      assert keys == [keys[0]] + keys[1..];
    }
  }

  // ------------------------------------------------------------- how lines count after a change

  lemma KindOfTrim(a: string, b: string)
    requires Trim(a) == Trim(b)
    ensures KindOf(a) == KindOf(b)
  {
    NoHeadInFalsy();
    hide Trim, StartsWith, ArgKey;
    assert ArgKey(a) == ArgKey(b) by { SameArgKey(a, b); }
  }

  lemma SameArgKey(a: string, b: string)
    requires Trim(a) == Trim(b)
    ensures ArgKey(a) == ArgKey(b)
  {
  }

  lemma NoHeadInFalsy()
    ensures !StartsWith(Trim(""), "ARG") && !StartsWith(Trim("0"), "ARG")
  {
  }

  lemma KindOfTrimRight(line: string)
    ensures KindOf(TrimRight(line)) == KindOf(line)
  {
    var r := TrimRight(line);
    assert TrimRight(r) == r;
    hide TrimRight;
    KindOfTrim(r, line);
  }

  lemma RunIsOther(line: string)
    requires IsRun(line)
    ensures KindOf(line) == Other
  {
    hide TrimLeft, TrimRight;
    StartsWithHead(TrimLeft(line), "RUN");
    var k := |line| - |TrimLeft(line)|;
    assert line[k] == TrimLeft(line)[0];
    var t := TrimRight(line);
    assert k < |t| && t[k] == 'R';
    TrimLeftSkips(t, k);
    assert Trim(line)[0] == 'R';
    StartsWithHead(Trim(line), "FROM");
    StartsWithHead(Trim(line), "ARG");
  }

  lemma MountKeepsKind(line: string, keys: seq<string>)
    ensures KindOf(WithMounts(line, keys)) == KindOf(line)
  {
    hide IsRun, Contains, Mounts, Trim, TrimLeft, KindOf;
    if WithMounts(line, keys) != line {
      RunIsOther(line);
      RunHasHead(line);
      WithMountsAgain(line, keys);
      RunIsOther(WithMounts(line, keys));
    }
  }

  lemma BlankIsOther(line: string)
    requires TrimRight(line) == ""
    ensures KindOf(line) == Other
  {
    assert Trim(line) == "";
  }

  lemma FromStays(line: string, dotted: seq<string>)
    requires IsFrom(COMPOSE, line)
    ensures FilterLine(line, dotted) == [line] && TrimRight(line) != ""
  {
    hide Trim, Words, Kept, Join;
    StartsWithHead(Trim(line), "FROM");
    StartsWithHead(Trim(line), "ARG ");
    StartsWithHead(Trim(line), "ENV ");
    FalsyIsOther();
    if TrimRight(line) == "" {
      BlankIsOther(line);
    }
  }

  lemma FalsyIsOther()
    ensures KindOf("") == Other && KindOf("0") == Other
  {
  }

  lemma ArgHead(line: string)
    requires StartsWith(Trim(line), "ARG")
    ensures KindOf(line) == Arg(ArgKey(line))
  {
    NoHeadInFalsy();
    hide Trim, ArgKey;
    StartsWithHead(Trim(line), "ARG");
    StartsWithHead(Trim(line), "FROM");
  }

  lemma EnvHead(line: string)
    requires StartsWith(Trim(line), "ENV")
    ensures KindOf(line) == Other
  {
    hide Trim, ArgKey;
    StartsWithHead(Trim(line), "ENV");
    StartsWithHead(Trim(line), "ARG");
    StartsWithHead(Trim(line), "FROM");
  }

  lemma ShorterHead(s: string, head: string)
    requires |s| >= 4 && |head| == 4 && s[..4] == head
    ensures StartsWith(s, head[..3])
  {
    assert s[..3] == s[..4][..3];
  }

  lemma HeadWords()
    ensures "ARG "[..3] == "ARG" && "ENV "[..3] == "ENV"
  {
  }

  lemma InstructionStarts(head: string, kept: seq<string>)
    requires (head == "ARG " || head == "ENV ") && kept != [] && WordsOk(kept)
    ensures StartsWith(Trim(head + Join(kept)), head[..3])
  {
    hide WordsOk, Trim, Words;
    var r := head + Join(kept);
    if kept[0] == "" && |kept| == 1 {
      BareInstruction(head);
      JoinBlank(head, kept);
    } else {
      Reassembled(head, kept);
      ShorterHead(r, head);
    }
  }

  /** An ARG line that stays is still an ARG line, and an ENV line is none. */
  lemma DeclaredKind(line: string, dotted: seq<string>)
    requires Declares(line)
    ensures !KindOf(line).From?
    ensures var r := FilterLine(line, dotted);
      r != [] ==> !KindOf(r[0]).From? && (KindOf(r[0]).Arg? <==> KindOf(line).Arg?)
  {
    hide Words, Kept, Trim, Join, WordsOk, KindOf, StartsWith;
    DeclaredForm(line, dotted);
    DeclaredWords(line);
    var text := Trim(line);
    var kept := Kept(Words(text[4..]), dotted);
    ShorterHead(text, text[..4]);
    HeadWords();
    KindsOfHead(line);
    if kept != [] {
      InstructionStarts(text[..4], kept);
      KindsOfHead(text[..4] + Join(kept));
      NotBoth(Trim(text[..4] + Join(kept)));
    }
    NotBoth(text);
  }

  lemma KindsOfHead(line: string)
    ensures StartsWith(Trim(line), "ARG") ==> KindOf(line).Arg?
    ensures StartsWith(Trim(line), "ENV") ==> KindOf(line) == Other
  {
    hide KindOf, Trim, StartsWith;
    if StartsWith(Trim(line), "ARG") { ArgHead(line); }
    if StartsWith(Trim(line), "ENV") { EnvHead(line); }
  }

  lemma NotBoth(s: string)
    ensures !(StartsWith(s, "ARG") && StartsWith(s, "ENV"))
  {
    StartsWithHead(s, "ARG");
    StartsWithHead(s, "ENV");
  }

  /** The filter changes no line into a FROM or ARG line, and no such line into another. */
  lemma FilterKeepsKind(line: string, dotted: seq<string>)
    ensures var r := FilterLine(line, dotted);
      && (r != [] ==> (KindOf(r[0]).From? <==> KindOf(line).From?) && (KindOf(r[0]).Arg? <==> KindOf(line).Arg?))
      && (r == [] ==> !KindOf(line).From?)
  {
    hide KindOf, Words, Kept, Join, Trim;
    if Declares(line) {
      DeclaredKind(line, dotted);
    } else {
      FalsyIsOther();
    }
  }

  // ------------------------------------------------------------- a declared key without a dot stays declared

  lemma {:induction false} KeyIsBefore(w: string)
    ensures Key(w) == Before(w, '=')
  {
    if w != "" {
      KeyIsBefore(w[1..]);
    }
  }

  lemma {:induction false} FirstWord(rest: string, key: string)
    requires Before(rest, '=') == key && Word(key)
    ensures var words := Words(rest); Before(words[0], '=') == key && (|words| > 1 ==> '=' in words[0])
    decreases |rest|
  {
    if rest != "" && rest[0] != '=' {
      var k := Before(rest[1..], '=');
      assert key == [rest[0]] + k;
      assert !IsSpace(key[0]);
      assert Word(k) by {
        forall i | 0 <= i < |k| ensures !IsSpace(k[i]) { assert key[i + 1] == k[i]; }
      }
      hide IsSpace;
      FirstWord(rest[1..], k);
      var w := Words(rest[1..])[0];
      assert ([rest[0]] + w)[1..] == w;
    }
  }

  lemma {:induction false} BeforeConcat(a: string, b: string)
    requires '=' in a
    ensures Before(a + b, '=') == Before(a, '=')
  {
    if a[0] != '=' {
      assert (a + b)[1..] == a[1..] + b;
      BeforeConcat(a[1..], b);
    }
  }

  lemma BeforeJoin(words: seq<string>)
    requires words != [] && (|words| > 1 ==> '=' in words[0])
    ensures Before(Join(words), '=') == Before(words[0], '=')
  {
    if |words| > 1 {
      BeforeConcat(words[0], " " + Join(words[1..]));
      assert words[0] + (" " + Join(words[1..])) == Join(words);
    }
  }

  lemma ArgKeyOf(line: string, rest: string)
    requires Trim(line) == "ARG " + rest
    ensures ArgKey(line) == Some(Before(rest, '='))
  {
    hide Trim;
    AfterPrefix("ARG", ' ', rest);
    assert "ARG" + [' '] + rest == "ARG " + rest;
  }

  lemma KeptFirst(words: seq<string>, dotted: seq<string>)
    requires words != [] && Key(words[0]) !in dotted
    ensures var k := Kept(words, dotted); k != [] && k[0] == words[0] && |k| <= |words|
  {
    KeptIsShorter(words[1..], dotted);
  }

  lemma {:induction false} KeptIsShorter(words: seq<string>, dotted: seq<string>)
    ensures |Kept(words, dotted)| <= |words|
  {
    if words != [] {
      KeptIsShorter(words[1..], dotted);
    }
  }

  lemma PlainArgStays(line: string, key: string, dotted: seq<string>)
    requires Declares(line) && KindOf(line) == Arg(Some(key)) && ValidKey(key) && key !in dotted
    ensures var r := FilterLine(line, dotted); r != [] && KindOf(r[0]) == Arg(Some(key))
  {
    hide Words, Kept, Trim, Join, WordsOk, KindOf, StartsWith, ValidKey, Before, Key;
    DeclaredForm(line, dotted);
    DeclaredWords(line);
    KindsOfHead(line);
    var text := Trim(line);
    var rest := text[4..];
    ShorterHead(text, text[..4]);
    HeadWords();
    assert text == text[..4] + rest;
    ArgKeyOf(line, rest);
    ArgHead(line);
    KeyIsWord(key);
    FirstWord(rest, key);
    var words := Words(rest);
    KeyIsBefore(words[0]);
    KeptFirst(words, dotted);
    var kept := Kept(words, dotted);
    assert words[0] != "" by { BlankBefore0(words[0], key); }
    PlainForm(kept, key);
    KeptStays("ARG ", kept, dotted);
  }

  lemma BlankBefore0(w: string, key: string)
    requires Before(w, '=') == key && key != ""
    ensures w != ""
  {
  }

  lemma KeyIsWord(key: string)
    requires ValidKey(key)
    ensures Word(key) && key != ""
  {
    KeyChars(key);
  }

  lemma PlainForm(kept: seq<string>, key: string)
    requires kept != [] && WordsOk(kept) && kept[0] != "" && Before(kept[0], '=') == key
    requires |kept| > 1 ==> '=' in kept[0]
    ensures KindOf("ARG " + Join(kept)) == Arg(Some(key))
  {
    hide Words, Trim, Join, WordsOk, KindOf, StartsWith, Before;
    var r := "ARG " + Join(kept);
    Reassembled("ARG ", kept);
    InstructionStarts("ARG ", kept);
    assert "ARG "[..3] == "ARG";
    ArgHead(r);
    BeforeJoin(kept);
    ArgKeyOf(r, Join(kept));
  }

  lemma PlainKeyStays(line: string, key: string, dotted: seq<string>)
    requires KindOf(line) == Arg(Some(key)) && ValidKey(key) && key !in dotted
    ensures var r := FilterLine(line, dotted); r != [] && KindOf(r[0]) == Arg(Some(key))
  {
    hide KindOf, ValidKey, Words, Kept, Join, Trim;
    if Declares(line) {
      PlainArgStays(line, key, dotted);
    } else {
      FalsyIsOther();
    }
  }

  // ------------------------------------------------------------- stages that declare keys

  /** Every stage declares the keys in the ARG block after its FROM line. */
  predicate Declared(lines: seq<string>, keys: seq<string>) {
    lines == [] ||
    (&& (IsFrom(COMPOSE, lines[0]) ==> forall key :: key in keys ==> key in Existing(COMPOSE, lines[1..]))
     && Declared(lines[1..], keys))
  }

  lemma {:induction false} DeclaredFrom(lines: seq<string>, keys: seq<string>)
    requires forall i :: 0 <= i < |lines| && IsFrom(COMPOSE, lines[i]) ==>
      forall key :: key in keys ==> key in Existing(COMPOSE, lines[i + 1..])
    ensures Declared(lines, keys)
  {
    hide KindOf, IsFrom;
    if lines != [] {
      assert lines[0 + 1..] == lines[1..];
      forall i | 0 <= i < |lines[1..]| && IsFrom(COMPOSE, lines[1..][i])
        ensures forall key :: key in keys ==> key in Existing(COMPOSE, lines[1..][i + 1..])
      {
        assert lines[1..][i] == lines[i + 1] && lines[1..][i + 1..] == lines[i + 1 + 1..];
      }
      DeclaredFrom(lines[1..], keys);
    }
  }

  lemma RewrittenDeclares(lines: seq<string>, keys: seq<string>)
    requires ValidKeys(keys)
    ensures Declared(Rewrite(COMPOSE, lines, keys), keys)
  {
    hide KindOf, IsFrom, Existing, Rewrite;
    ComposeSound(keys);
    var out := Rewrite(COMPOSE, lines, keys);
    forall i | 0 <= i < |out| && IsFrom(COMPOSE, out[i])
      ensures forall key :: key in keys ==> key in Existing(COMPOSE, out[i + 1..])
    {
      EveryStageDeclaresEveryKey(COMPOSE, lines, keys, i);
    }
    DeclaredFrom(out, keys);
  }

  lemma {:induction false} DeclaredFewer(lines: seq<string>, keys: seq<string>, some: seq<string>)
    requires Declared(lines, keys) && forall key :: key in some ==> key in keys
    ensures Declared(lines, some)
  {
    hide KindOf, IsFrom, Existing;
    if lines != [] {
      DeclaredFewer(lines[1..], keys, some);
    }
  }

  lemma {:induction false} DeclaredBoth(lines: seq<string>, keys: seq<string>, a: seq<string>, b: seq<string>)
    requires Declared(lines, a) && Declared(lines, b) && forall key :: key in keys ==> key in a || key in b
    ensures Declared(lines, keys)
  {
    hide KindOf, IsFrom, Existing;
    if lines != [] {
      DeclaredBoth(lines[1..], keys, a, b);
    }
  }

  lemma {:induction false} SomethingMissing(keys: seq<string>, existing: seq<string>, key: string)
    requires key in keys && key !in existing
    ensures Missing(COMPOSE, keys, existing) != []
  {
    if keys[0] in existing {
      SomethingMissing(keys[1..], existing, key);
    }
  }

  /** The injection adds lines exactly if a stage lacks a key. */
  lemma {:induction false} AddsUnlessDeclared(lines: seq<string>, keys: seq<string>)
    ensures |Rewrite(COMPOSE, lines, keys)| == |lines| <==> Declared(lines, keys)
  {
    hide KindOf, Existing;
    if lines != [] {
      AddsUnlessDeclared(lines[1..], keys);
      if IsFrom(COMPOSE, lines[0]) {
        var existing := Existing(COMPOSE, lines[1..]);
        if forall key :: key in keys ==> key in existing {
          NothingMissing(COMPOSE, keys, existing);
        } else {
          var key :| key in keys && key !in existing;
          SomethingMissing(keys, existing, key);
        }
      }
    }
  }

  predicate SameKinds(a: seq<string>, b: seq<string>) {
    |a| == |b| && forall i :: 0 <= i < |a| ==> KindOf(a[i]) == KindOf(b[i])
  }

  lemma {:induction false} SameKindsDeclare(a: seq<string>, b: seq<string>, keys: seq<string>)
    requires SameKinds(a, b)
    ensures Existing(COMPOSE, a) == Existing(COMPOSE, b) && (Declared(a, keys) <==> Declared(b, keys))
  {
    hide KindOf;
    if a != [] {
      assert SameKinds(a[1..], b[1..]);
      SameKindsDeclare(a[1..], b[1..], keys);
    }
  }

  lemma {:induction false} OtherAtEnd(lines: seq<string>, line: string, keys: seq<string>)
    requires KindOf(line) == Other
    ensures Existing(COMPOSE, lines + [line]) == Existing(COMPOSE, lines)
    ensures Declared(lines + [line], keys) <==> Declared(lines, keys)
  {
    hide KindOf;
    if lines == [] {
      assert [line][1..] == [];
    } else {
      assert (lines + [line])[1..] == lines[1..] + [line];
      OtherAtEnd(lines[1..], line, keys);
    }
  }

  /** The spaces at the end of a file declare nothing. */
  lemma {:induction false} TrimTailDeclares(lines: seq<string>, keys: seq<string>)
    requires lines != []
    ensures Declared(TrimTail(lines), keys) <==> Declared(lines, keys)
    decreases |lines|
  {
    hide KindOf, TrimRight, Declared;
    var n := |lines| - 1;
    assert lines == lines[..n] + [lines[n]];
    if n > 0 && TrimRight(lines[n]) == "" {
      BlankIsOther(lines[n]);
      OtherAtEnd(lines[..n], lines[n], keys);
      TrimTailDeclares(lines[..n], keys);
    } else {
      KindOfTrimRight(lines[n]);
      SameKindsDeclare(TrimTail(lines), lines, keys);
    }
  }

  lemma MountsDeclare(lines: seq<string>, all: seq<string>, keys: seq<string>)
    ensures Declared(MountRuns(lines, all), keys) <==> Declared(lines, keys)
  {
    var out := MountRuns(lines, all);
    forall i | 0 <= i < |lines| ensures KindOf(out[i]) == KindOf(lines[i]) {
      MountKeepsKind(lines[i], all);
    }
    SameKindsDeclare(out, lines, keys);
  }

  lemma SyntaxDeclares(lines: seq<string>, keys: seq<string>)
    requires lines != []
    ensures Declared(WithSyntax(lines), keys) <==> Declared(lines, keys)
  {
    if WithSyntax(lines) != lines {
      hide KindOf;
      SyntaxIsOther();
      assert WithSyntax(lines)[1..] == lines;
    }
  }

  lemma SyntaxIsOther()
    ensures KindOf(SYNTAX_LINE) == Other
  {
    hide *;
    SyntaxLine();
    CommentIsOther(SYNTAX_LINE);
  }

  lemma CommentIsOther(line: string)
    requires StartsWith(line, SYNTAX_MARK)
    ensures KindOf(line) == Other
  {
    hide Trim;
    StartsWithHead(line, SYNTAX_MARK);
    TrimKeepsHead(line);
    StartsWithHead(Trim(line), "FROM");
    StartsWithHead(Trim(line), "ARG");
  }

  lemma {:induction false} FilterKeepsExisting(lines: seq<string>, keys: seq<string>, dotted: seq<string>, key: string)
    requires key in Existing(COMPOSE, lines) && ValidKey(key) && key !in dotted
    ensures key in Existing(COMPOSE, FilterDotted(lines, dotted))
  {
    hide KindOf, FilterLine, ValidKey;
    var r, rest := FilterLine(lines[0], dotted), FilterDotted(lines[1..], dotted);
    FilterKeepsKind(lines[0], dotted);
    if KindOf(lines[0]) == Arg(Some(key)) {
      PlainKeyStays(lines[0], key, dotted);
      assert (r + rest)[1..] == rest;
    } else {
      FilterKeepsExisting(lines[1..], keys, dotted, key);
      if r == [] {
        assert r + rest == rest;
      } else {
        assert (r + rest)[1..] == rest;
      }
    }
  }

  /** The removal of dotted keys leaves the other keys declared. */
  lemma {:induction false} FilterDeclares(lines: seq<string>, keys: seq<string>, dotted: seq<string>)
    requires Declared(lines, keys) && ValidKeys(keys) && forall key :: key in keys ==> key !in dotted
    ensures Declared(FilterDotted(lines, dotted), keys)
  {
    hide KindOf, FilterLine, ValidKey, Existing;
    if lines != [] {
      var r, rest := FilterLine(lines[0], dotted), FilterDotted(lines[1..], dotted);
      FilterDeclares(lines[1..], keys, dotted);
      FilterKeepsKind(lines[0], dotted);
      if r == [] {
        assert r + rest == rest;
      } else {
        assert (r + rest)[1..] == rest;
        if IsFrom(COMPOSE, lines[0]) {
          forall key | key in keys ensures key in Existing(COMPOSE, rest) {
            FilterKeepsExisting(lines[1..], keys, dotted, key);
          }
        }
      }
    }
  }

  // ------------------------------------------------------------- the filter and the injected lines

  lemma {:induction false} FilterConcat(a: seq<string>, b: seq<string>, dotted: seq<string>)
    ensures FilterDotted(a + b, dotted) == FilterDotted(a, dotted) + FilterDotted(b, dotted)
  {
    hide FilterLine;
    if a == [] {
      assert a + b == b;
    } else {
      assert (a + b)[1..] == a[1..] + b;
      FilterConcat(a[1..], b, dotted);
    }
  }

  lemma InjectedLine(key: string, dotted: seq<string>)
    requires ValidKey(key)
    ensures FilterLine(ArgLine(key), dotted) == if key in dotted then [] else [ArgLine(key)]
  {
    hide Words, Trim, WordsOk, ValidKey, Key, Declares;
    if key in dotted {
      DottedArgument(key, dotted);
    } else {
      KeyIsWord(key);
      KeyChars(key);
      KeyOfName(key);
      assert WordsOk([key]) by { hide *; OneWordOk(key); }
      Reassembled("ARG ", [key]);
      OneWord(key);
      assert Kept([key], dotted) == [key];
      KeptStays("ARG ", [key], dotted);
      assert "ARG " + Join([key]) == ArgLine(key);
    }
  }

  lemma OneWordOk(w: string)
    requires Word(w)
    ensures WordsOk([w])
  {
  }

  lemma {:induction false} FilterMissing(keys: seq<string>, existing: seq<string>, dotted: seq<string>)
    requires ValidKeys(keys) && forall key :: key in keys && key !in dotted ==> key in existing
    ensures FilterDotted(Missing(COMPOSE, keys, existing), dotted) == []
  {
    hide FilterLine, ValidKey;
    if keys != [] {
      FilterMissing(keys[1..], existing, dotted);
      if keys[0] !in existing {
        InjectedLine(keys[0], dotted);
        assert Missing(COMPOSE, keys, existing)[1..] == Missing(COMPOSE, keys[1..], existing);
      }
    }
  }

  /** Where only dotted keys are missing, the filter removes what the injection adds. */
  lemma {:induction false} FilterUndoesInjection(lines: seq<string>, keys: seq<string>, plain: seq<string>,
                                                 dotted: seq<string>)
    requires ValidKeys(keys) && Declared(lines, plain) && forall key :: key in keys && key !in dotted ==> key in plain
    ensures FilterDotted(Rewrite(COMPOSE, lines, keys), dotted) == FilterDotted(lines, dotted)
  {
    hide FilterLine, ValidKey, KindOf, Existing;
    if lines != [] {
      FilterUndoesInjection(lines[1..], keys, plain, dotted);
      var rest := Rewrite(COMPOSE, lines[1..], keys);
      assert [lines[0]] + lines[1..] == lines;
      FilterConcat([lines[0]], lines[1..], dotted);
      FilterConcat([lines[0]], rest, dotted);
      if IsFrom(COMPOSE, lines[0]) {
        var m := Missing(COMPOSE, keys, Existing(COMPOSE, lines[1..]));
        FilterMissing(keys, Existing(COMPOSE, lines[1..]), dotted);
        FilterConcat([lines[0]] + m, rest, dotted);
        FilterConcat([lines[0]], m, dotted);
      }
    }
  }

  // ------------------------------------------------------------- what a second service reads

  lemma FalsyHasNoFrom(content: string)
    requires HasFrom(Explode(Trim(content)))
    ensures content != "" && content != "0"
  {
    hide KindOf, Explode, Trim;
    FalsyIsOther();
    ExplodeFalsy();
  }

  lemma TrimFalsy()
    ensures Trim("") == "" && Trim("0") == "0"
  {
  }

  lemma ExplodeFalsy()
    ensures Explode(Trim("")) == [""] && Explode(Trim("0")) == ["0"]
  {
    hide *;
    TrimFalsy();
    ExplodeOne('0');
    assert ['0'] == "0";
  }

  lemma ExplodeOne(c: char)
    requires c != '\n'
    ensures Explode([c]) == [[c]] && Explode("") == [""]
  {
    assert [c][1..] == "";
    assert [c] + "" == [c];
    assert [[c] + ""] + [""][1..] == [[c]];
  }

  lemma {:induction false} RewriteKeepsFrom(lines: seq<string>, keys: seq<string>, line: string)
    requires line in lines
    ensures line in Rewrite(COMPOSE, lines, keys)
  {
    hide KindOf, Missing;
    if line != lines[0] {
      RewriteKeepsFrom(lines[1..], keys, line);
    }
  }

  /** What the secret rewrite reads after the injection. */
  lemma InjectedRead(content: string, keys: seq<string>)
    requires ValidKeys(keys) && !Skipped(content, keys)
    ensures var lines := Rewrite(COMPOSE, Explode(Trim(content)), keys); var injected := InjectedFile(content, keys);
      && Explode(Trim(injected)) == lines && lines != [] && Tight(lines) && HasFrom(lines) && Declared(lines, keys)
      && InjectedFile(injected, keys) == injected
  {
    hide KindOf, Trim, Explode, Implode, Rewrite, IsSpace, OneLine, IsFrom, ValidKeys;
    var lines := Explode(Trim(content));
    var out := Rewrite(COMPOSE, lines, keys);
    FromIsNotBlank(lines, Trim(content));
    ReadIsTight(content);
    RewriteEndsTight(lines, keys);
    ReadBack(out);
    RewrittenDeclares(lines, keys);
    if |out| == |lines| {
      NothingAdded(COMPOSE, lines, keys);
    }
    InjectedFileIdempotent(content, keys);
    var i :| 0 <= i < |lines| && IsFrom(COMPOSE, lines[i]);
    RewriteKeepsFrom(lines, keys, lines[i]);
    var j :| 0 <= j < |out| && out[j] == lines[i];
  }

  lemma {:induction false} FilterKeepsFrom(lines: seq<string>, dotted: seq<string>, line: string)
    requires line in lines && IsFrom(COMPOSE, line)
    ensures line in FilterDotted(lines, dotted)
  {
    hide KindOf, FilterLine;
    if line == lines[0] {
      FromStays(line, dotted);
    } else {
      FilterKeepsFrom(lines[1..], dotted, line);
    }
  }

  lemma {:induction false} VisibleIsRead(lines: seq<string>, i: nat)
    requires i < |lines| && TrimRight(lines[i]) != ""
    ensures i < |TrimTail(lines)|
    decreases |lines|
  {
    hide TrimRight;
    var n := |lines| - 1;
    if n > 0 && TrimRight(lines[n]) == "" {
      VisibleIsRead(lines[..n], i);
    }
  }

  lemma FromIsRead(out: seq<string>, line: string)
    requires line in out && IsFrom(COMPOSE, line)
    ensures HasFrom(TrimTail(out))
  {
    hide KindOf, TrimRight, TrimTail, FilterLine;
    var i :| 0 <= i < |out| && out[i] == line;
    FromStays(line, []);
    VisibleIsRead(out, i);
    TrimTailAt(out, i);
    KindOfTrimRight(line);
    assert IsFrom(COMPOSE, TrimTail(out)[i]);
  }

  lemma PipelineKeepsFrom(lines: seq<string>, keys: seq<string>)
    requires lines != [] && HasFrom(lines)
    ensures Pipeline(lines, keys) != [] && HasFrom(TrimTail(Pipeline(lines, keys)))
  {
    hide KindOf, FilterDotted, TrimTail, WithMounts, Dotted;
    var i :| 0 <= i < |lines| && IsFrom(COMPOSE, lines[i]);
    var line, start := lines[i], WithSyntax(lines);
    assert line in start;
    FilterKeepsFrom(start, Dotted(keys), line);
    var filtered := Filtered(start, keys);
    var j :| 0 <= j < |filtered| && filtered[j] == line;
    FromIsUnmounted(line, keys);
    assert MountRuns(filtered, keys)[j] == line;
    FromIsRead(Pipeline(lines, keys), line);
  }

  lemma FromIsUnmounted(line: string, keys: seq<string>)
    requires IsFrom(COMPOSE, line)
    ensures WithMounts(line, keys) == line
  {
    hide KindOf, IsRun, Contains;
    if IsRun(line) {
      RunIsOther(line);
    }
  }

  /** The keys without a dot are declared in what a second service reads. */
  lemma PlainDeclared(lines: seq<string>, keys: seq<string>)
    requires lines != [] && ValidKeys(keys) && Declared(lines, keys)
    ensures Pipeline(lines, keys) != [] && Declared(TrimTail(Pipeline(lines, keys)), Plain(keys))
  {
    hide KindOf, FilterDotted, TrimTail, MountRuns, WithSyntax, Declared, Dotted, Plain;
    DottedKeys(keys);
    var plain, dotted, start := Plain(keys), Dotted(keys), WithSyntax(lines);
    DeclaredFewer(lines, keys, plain);
    SyntaxDeclares(lines, plain);
    PlainValid(keys);
    FilterDeclares(start, plain, dotted);
    assert Declared(Filtered(start, keys), plain);
    MountsDeclare(Filtered(start, keys), keys, plain);
    PipelineHead(lines, keys);
    TrimTailDeclares(Pipeline(lines, keys), plain);
  }

  lemma PlainValid(keys: seq<string>)
    requires ValidKeys(keys)
    ensures ValidKeys(Plain(keys)) && ValidKeys(Dotted(keys))
  {
    hide ValidKey;
    forall i | 0 <= i < |Plain(keys)| ensures ValidKey(Plain(keys)[i]) {
      assert Plain(keys)[i] in keys;
    }
    forall i | 0 <= i < |Dotted(keys)| ensures ValidKey(Dotted(keys)[i]) {
      assert Dotted(keys)[i] in keys;
    }
  }

  // ------------------------------------------------------------- the second service

  /** The run of a service whose Dockerfile is read as `read`. */
  lemma ServiceRun(content: string, keys: seq<string>)
    requires keys != [] && HasFrom(Explode(Trim(content)))
    ensures ServiceFile(content, keys) == SecretsFile(InjectedFile(content, keys), keys)
  {
    FalsyHasNoFrom(content);
  }

  /** Nothing is injected: every key is declared. */
  lemma NothingInjected(content: string, keys: seq<string>)
    requires Declared(Explode(Trim(content)), keys)
    ensures InjectedFile(content, keys) == content
  {
    AddsUnlessDeclared(Explode(Trim(content)), keys);
  }

  lemma SomethingInjected(content: string, keys: seq<string>)
    requires ValidKeys(keys) && HasFrom(Explode(Trim(content))) && !Declared(Explode(Trim(content)), keys)
    ensures var read := Explode(Trim(content)); var lines := Rewrite(COMPOSE, read, keys);
      && |lines| > |read| && lines[0] == read[0] && Explode(Trim(InjectedFile(content, keys))) == lines
  {
    hide KindOf, Trim, Explode, Implode, Rewrite, IsSpace, OneLine, IsFrom, ValidKeys, HasFrom, Declared;
    var read := Explode(Trim(content));
    AddsUnlessDeclared(read, keys);
    FalsyHasNoFrom(content);
    FromIsNotBlank(read, Trim(content));
    ReadIsTight(content);
    RewriteEndsTight(read, keys);
    ReadBack(Rewrite(COMPOSE, read, keys));
  }

  /** The rewrite for secrets drops the lines that were injected because a dotted key was missing, so that it
      writes what it makes of the file without them. */
  lemma InjectedInVain(content: string, keys: seq<string>)
    requires ValidKeys(keys)
    requires var read := Explode(Trim(content));
      HasFrom(read) && StartsWith(read[0], SYNTAX_MARK) && Declared(read, Plain(keys)) && !Declared(read, keys)
    ensures var out := Pipeline(Explode(Trim(content)), keys);
      out != [] && Dotted(keys) != [] && ServiceFile(content, keys) == Implode(out)
  {
    hide KindOf, Trim, Explode, Implode, Rewrite, FilterDotted, IsSpace, OneLine, IsFrom, ValidKeys, HasFrom,
      Declared, Plain, Dotted,
      StartsWith, MountRuns, InjectedFile;
    var read, dotted := Explode(Trim(content)), Dotted(keys);
    var lines := Rewrite(COMPOSE, read, keys);
    DottedKeys(keys);
    assert keys != [] by { NoKeysDeclared(read, keys); }
    ServiceRun(content, keys);
    SomethingInjected(content, keys);
    FilterUndoesInjection(read, keys, Plain(keys), dotted);
    FilterIsShorter(read, dotted);
    assert WithSyntax(lines) == lines && WithSyntax(read) == read;
    ShorterIsModified(lines, keys);
    PipelineHead(read, keys);
    SameFilterSameOut(read, lines, keys);
    WrittenWhenModified(InjectedFile(content, keys), keys);
  }

  lemma {:induction false} NoKeysDeclared(lines: seq<string>, keys: seq<string>)
    ensures keys == [] ==> Declared(lines, keys)
  {
    hide KindOf, Existing;
    if lines != [] {
      NoKeysDeclared(lines[1..], keys);
    }
  }

  lemma SameFilterSameOut(a: seq<string>, b: seq<string>, keys: seq<string>)
    requires a != [] && b != [] && Dotted(keys) != []
    requires FilterDotted(WithSyntax(a), Dotted(keys)) == FilterDotted(WithSyntax(b), Dotted(keys))
    ensures Pipeline(a, keys) == Pipeline(b, keys)
  {
    hide FilterDotted, MountRuns, WithSyntax, Dotted;
  }

  lemma WrittenWhenModified(content: string, keys: seq<string>)
    requires keys != [] && Modified(Explode(Trim(content)), keys)
    ensures var out := Pipeline(Explode(Trim(content)), keys); out != [] && SecretsFile(content, keys) == Implode(out)
  {
    PipelineHead(Explode(Trim(content)), keys);
    hide Pipeline, Modified, Explode, Trim, Implode;
  }

  lemma FinalOut(read: seq<string>, keys: seq<string>)
    requires read != [] && StartsWith(read[0], SYNTAX_MARK) && forall i :: 0 <= i < |read| ==> Final(read[i], keys)
    ensures Pipeline(read, keys) == read
  {
    hide Final, FilterDotted, Dotted, WithMounts;
    FinalIsNotModified(read, keys);
  }

  lemma LastIsNoZero(out: seq<string>, keys: seq<string>)
    requires out != [] && Dotted(keys) != [] && Final(Last(out), keys)
    ensures Last(out) != "0" && Last(out) != ""
  {
  }

  lemma TrimRightIsSame(s: string)
    ensures TrimRight(s) == s <==> s == "" || !IsSpace(s[|s| - 1])
  {
  }

  /** A written file read again: the lines are final but for a last line "0". */
  lemma WrittenRead(lines: seq<string>, keys: seq<string>)
    requires Lines(lines) && ValidKeys(keys) && Dotted(keys) != []
    ensures var out := Pipeline(lines, keys);
      && out != [] && Lines(out) && Last(out) != "0" && Last(out) != ""
      && var read := TrimTail(out);
         && Explode(Trim(Implode(out))) == read && StartsWith(read[0], SYNTAX_MARK)
         && if Last(read) == "0" then |read| > 1 && Pipeline(read, keys) == read[..|read| - 1]
            else Pipeline(read, keys) == read
  {
    hide Final, Pipeline, TrimTail, TrimRight, Explode, Trim, StartsWith, OneLine, ValidKeys, Dotted, Implode;
    SecondRead(lines, keys);
    PipelineLines(lines, keys);
    var out, read := Pipeline(lines, keys), TrimTail(Pipeline(lines, keys));
    PipelineIsFinal(lines, keys, |out| - 1);
    LastIsNoZero(out, keys);
    forall i | 0 <= i < |read|
      ensures Final(read[i], keys) || (Dotted(keys) != [] && i == |read| - 1 && read[i] == "0")
    {
      SecondReadIsFinal(lines, keys, i);
    }
    if Last(read) == "0" {
      StartsWithHead(read[0], SYNTAX_MARK);
      ZeroLineIsLost(read, keys);
    } else {
      FinalOut(read, keys);
    }
  }

  lemma TrimRightWritten(out: seq<string>)
    requires Lines(out) && Last(out) != "" && Lines(TrimTail(out))
    ensures TrimRight(Implode(out)) == Implode(TrimTail(out))
    ensures TrimRight(Implode(out)) == Implode(out) <==> TrimTail(out) == out
  {
    hide TrimTail, TrimRight, OneLine, Explode, Implode;
    TrimRightImplode(out);
    ExplodeImplode(out);
    ExplodeImplode(TrimTail(out));
  }

  /** A written file whose stages lack a dotted key, run again: the ARG lines come and go, and what stays of
      it is the file without the white space at its end. */
  lemma SecondServiceInVain(lines: seq<string>, keys: seq<string>)
    requires lines != [] && Lines(lines) && ValidKeys(keys) && HasFrom(lines) && Declared(lines, keys)
    requires Pipeline(lines, keys) != []
    requires !Declared(TrimTail(Pipeline(lines, keys)), keys)
    ensures var written := Implode(Pipeline(lines, keys));
      ServiceFile(written, keys) == written <==> TrimRight(written) == written
  {
    hide *;
    var out := Pipeline(lines, keys);
    var read, written := TrimTail(out), Implode(out);
    PlainDeclared(lines, keys);
    PipelineKeepsFrom(lines, keys);
    SecondRead(lines, keys);
    InjectedInVain(written, keys);
    WrittenRead(lines, keys);
    TrimRightWritten(out);
    if Last(read) == "0" {
      assert read != out;
      LosesLine(read);
      TrimRightIsShorter(written);
    }
  }

  lemma LosesLine(read: seq<string>)
    requires |read| > 1
    ensures |Implode(read[..|read| - 1])| < |Implode(read)|
  {
    ImplodeSnoc(read);
  }

  lemma TrimRightIsShorter(s: string)
    ensures |TrimRight(s)| <= |s|
  {
  }

  lemma SecondServiceDeclared(lines: seq<string>, keys: seq<string>)
    requires lines != [] && Lines(lines) && ValidKeys(keys) && keys != [] && HasFrom(lines)
    requires Pipeline(lines, keys) != []
    requires Declared(TrimTail(Pipeline(lines, keys)), keys)
    ensures var out := Pipeline(lines, keys);
      ServiceFile(Implode(out), keys) == Implode(out) <==> !(Dotted(keys) != [] && Last(TrimTail(out)) == "0")
  {
    hide *;
    var out := Pipeline(lines, keys);
    var written := Implode(out);
    SecondRead(lines, keys);
    PipelineKeepsFrom(lines, keys);
    ServiceRun(written, keys);
    NothingInjected(written, keys);
    SecondRun(lines, keys);
  }

  /** What the second service does, by the lines that it reads. */
  lemma SecondService(content: string, keys: seq<string>)
    requires ValidKeys(keys) && !Skipped(content, keys)
    ensures var lines := Rewrite(COMPOSE, Explode(Trim(content)), keys); var out := Pipeline(lines, keys);
      var written := ServiceFile(content, keys);
      && out != []
      && (ServiceFile(written, keys) == written <==>
            || !Modified(lines, keys) || Dotted(keys) == []
            || if Declared(TrimTail(out), keys) then Last(TrimTail(out)) != "0"
               else TrimRight(Implode(out)) == Implode(out))
  {
    hide *;
    var lines, injected := Rewrite(COMPOSE, Explode(Trim(content)), keys), InjectedFile(content, keys);
    InjectedRead(content, keys);
    assert keys != [] && ServiceFile(content, keys) == SecretsFile(injected, keys) by { SkippedMeans(content, keys); }
    PipelineHead(lines, keys);
    ReadLines(injected);
    if Modified(lines, keys) {
      WrittenWhenModified(injected, keys);
      if Declared(TrimTail(Pipeline(lines, keys)), keys) {
        SecondServiceDeclared(lines, keys);
      } else {
        assert Dotted(keys) != [] by { AllPlain(lines, keys); }
        SecondServiceInVain(lines, keys);
      }
    } else {
      UnmodifiedStays(injected, keys);
      ServiceRun(injected, keys);
    }
  }

  lemma ReadLines(content: string)
    ensures Lines(Explode(Trim(content)))
  {
  }

  lemma SkippedMeans(content: string, keys: seq<string>)
    requires !Skipped(content, keys)
    ensures keys != [] && ServiceFile(content, keys) == SecretsFile(InjectedFile(content, keys), keys)
  {
  }

  lemma UnmodifiedStays(content: string, keys: seq<string>)
    requires !Modified(Explode(Trim(content)), keys)
    ensures SecretsFile(content, keys) == content
  {
  }

  lemma AllPlain(lines: seq<string>, keys: seq<string>)
    requires lines != [] && ValidKeys(keys) && Declared(lines, keys) && Pipeline(lines, keys) != []
    requires !Declared(TrimTail(Pipeline(lines, keys)), keys)
    ensures Dotted(keys) != []
  {
    hide *;
    PlainDeclared(lines, keys);
    DottedKeys(keys);
  }
}
