/** Which Dockerfiles the second of two Compose services changes again, read off the file before the first. */
module ComposeSecretsTwice {
  import opened ComposeArgs
  import opened ComposeSecrets
  import opened DockerfileText
  import opened SecretMounts
  import opened SecretMountsTwice
  import opened StageArgs
  import opened Wrappers

  // ------------------------------------------------------------- declarations that the filter does not see

  lemma {:induction false} FilteredExisting(lines: seq<string>, keys: seq<string>, dotted: seq<string>)
    ensures Existing(COMPOSE, FilterDotted(Rewrite(COMPOSE, lines, keys), dotted))
         == Existing(COMPOSE, FilterDotted(lines, dotted))
  {
    hide KindOf, FilterLine, Missing;
    if lines != [] {
      var r, out := FilterLine(lines[0], dotted), Rewrite(COMPOSE, lines, keys);
      FilteredExisting(lines[1..], keys, dotted);
      FilterKeepsKind(lines[0], dotted);
      if IsFrom(COMPOSE, lines[0]) {
        assert out[0] == lines[0];
      } else {
        assert out[1..] == Rewrite(COMPOSE, lines[1..], keys);
        FilteredFirst(r, FilterDotted(out[1..], dotted));
        FilteredFirst(r, FilterDotted(lines[1..], dotted));
      }
    }
  }

  lemma FilteredFirst(r: seq<string>, rest: seq<string>)
    requires |r| <= 1
    ensures Existing(COMPOSE, r + rest) ==
      if r == [] then Existing(COMPOSE, rest)
      else if !KindOf(r[0]).Arg? then []
      else if KindOf(r[0]).key == None then Existing(COMPOSE, rest)
      else [KindOf(r[0]).key.value] + Existing(COMPOSE, rest)
  {
    hide KindOf;
    if r == [] {
      assert r + rest == rest;
    } else {
      assert (r + rest)[1..] == rest;
    }
  }

  predicate SameIn(keys: seq<string>, a: seq<string>, b: seq<string>) {
    forall key :: key in keys ==> (key in a <==> key in b)
  }

  /** The injected lines that the filter leaves declare no dotted key. */
  lemma {:induction false} FilteredMissing(keys: seq<string>, existing: seq<string>, dotted: seq<string>,
                                           rest: seq<string>)
    requires ValidKeys(keys)
    ensures var m := FilterDotted(Missing(COMPOSE, keys, existing), dotted);
      && SameIn(dotted, Existing(COMPOSE, m + rest), Existing(COMPOSE, rest))
      && (Declared(m + rest, dotted) <==> Declared(rest, dotted))
  {
    hide KindOf, FilterLine, ValidKey, ArgLine;
    var missing := Missing(COMPOSE, keys, existing);
    var m := FilterDotted(missing, dotted);
    if keys == [] {
      assert m + rest == rest;
    } else {
      FilteredMissing(keys[1..], existing, dotted, rest);
      if keys[0] !in existing {
        var others := FilterDotted(Missing(COMPOSE, keys[1..], existing), dotted);
        assert missing[1..] == Missing(COMPOSE, keys[1..], existing);
        InjectedLine(keys[0], dotted);
        ArgLineDeclares(keys[0]);
        if keys[0] in dotted {
          assert m == others;
        } else {
          assert (m + rest)[1..] == others + rest;
        }
      }
    }
  }

  /** Whether the stages still declare the dotted keys is settled before the injection. */
  lemma {:induction false} FilteredDeclares(lines: seq<string>, keys: seq<string>, dotted: seq<string>)
    requires ValidKeys(keys)
    ensures Declared(FilterDotted(Rewrite(COMPOSE, lines, keys), dotted), dotted) <==>
      Declared(FilterDotted(lines, dotted), dotted)
  {
    hide KindOf, FilterLine, ValidKey, Existing, Missing;
    if lines != [] {
      var line, rest, r := lines[0], Rewrite(COMPOSE, lines[1..], keys), FilterLine(lines[0], dotted);
      FilteredDeclares(lines[1..], keys, dotted);
      FilterKeepsKind(line, dotted);
      var now, before := FilterDotted(rest, dotted), FilterDotted(lines[1..], dotted);
      if IsFrom(COMPOSE, line) {
        var m := Missing(COMPOSE, keys, Existing(COMPOSE, lines[1..]));
        FromStays(line, dotted);
        FilteredMissing(keys, Existing(COMPOSE, lines[1..]), dotted, now);
        FilteredExisting(lines[1..], keys, dotted);
        assert Rewrite(COMPOSE, lines, keys)[1..] == m + rest;
        FilterConcat(m, rest, dotted);
        assert (r + (FilterDotted(m, dotted) + now))[1..] == FilterDotted(m, dotted) + now;
        assert (r + before)[1..] == before;
      } else {
        assert Rewrite(COMPOSE, lines, keys)[1..] == rest;
        NoFromDeclares(r, now, dotted);
        NoFromDeclares(r, before, dotted);
      }
    }
  }

  lemma NoFromDeclares(r: seq<string>, rest: seq<string>, keys: seq<string>)
    requires |r| <= 1 && (r != [] ==> !IsFrom(COMPOSE, r[0]))
    ensures Declared(r + rest, keys) <==> Declared(rest, keys)
  {
    hide KindOf, Existing;
    if r == [] {
      assert r + rest == rest;
    } else {
      assert (r + rest)[1..] == rest;
    }
  }

  /** The stages declare every dotted key even without the lines and arguments that the filter removes. */
  predicate StillDeclared(lines: seq<string>, keys: seq<string>) {
    Declared(FilterDotted(lines, Dotted(keys)), Dotted(keys))
  }

  lemma SyntaxFiltered(lines: seq<string>, dotted: seq<string>, keys: seq<string>)
    requires lines != []
    ensures Declared(FilterDotted(WithSyntax(lines), dotted), keys) <==> Declared(FilterDotted(lines, dotted), keys)
  {
    if WithSyntax(lines) != lines {
      hide KindOf, FilterLine;
      SyntaxLine();
      SyntaxLineFiltered(SYNTAX_LINE, dotted, []);
      SyntaxIsOther();
      assert WithSyntax(lines)[1..] == lines;
      NoFromDeclares([SYNTAX_LINE], FilterDotted(lines, dotted), keys);
    }
  }

  lemma ReadStillDeclared(lines: seq<string>, keys: seq<string>)
    requires ValidKeys(keys) && lines != [] && Dotted(keys) != []
    ensures var all := Rewrite(COMPOSE, lines, keys); var out := Pipeline(all, keys);
      out != [] && (Declared(TrimTail(out), keys) <==> StillDeclared(lines, keys))
  {
    hide *;
    var all, dotted := Rewrite(COMPOSE, lines, keys), Dotted(keys);
    PipelineHead(all, keys);
    RewrittenDeclares(lines, keys);
    PlainDeclared(all, keys);
    DottedKeys(keys);
    var read := TrimTail(Pipeline(all, keys));
    if Declared(read, keys) {
      DeclaredFewer(read, keys, dotted);
    }
    if Declared(read, dotted) {
      PlainOrDotted(keys);
      DeclaredBoth(read, keys, dotted, Plain(keys));
    }
    TrimTailDeclares(Pipeline(all, keys), dotted);
    PipelineIs(all, keys);
    MountsDeclare(FilterDotted(WithSyntax(all), dotted), keys, dotted);
    SyntaxFiltered(all, dotted, dotted);
    FilteredDeclares(lines, keys, dotted);
    StillDeclaredMeans(lines, keys);
  }

  lemma PlainOrDotted(keys: seq<string>)
    ensures forall key :: key in keys ==> key in Dotted(keys) || key in Plain(keys)
  {
    DottedKeys(keys);
  }

  lemma PipelineIs(lines: seq<string>, keys: seq<string>)
    requires lines != [] && Dotted(keys) != []
    ensures Pipeline(lines, keys) == MountRuns(FilterDotted(WithSyntax(lines), Dotted(keys)), keys)
  {
  }

  lemma StillDeclaredMeans(lines: seq<string>, keys: seq<string>)
    ensures StillDeclared(lines, keys) <==> Declared(FilterDotted(lines, Dotted(keys)), Dotted(keys))
  {
  }

  // ------------------------------------------------------------- zeros at the end, before the injection

  predicate AllVanish(lines: seq<string>, dotted: seq<string>) {
    forall i :: 0 <= i < |lines| ==> Vanishes(lines[i], dotted)
  }

  lemma EndsInZeroFirst(line: string, rest: seq<string>, dotted: seq<string>)
    ensures EndsInZero([line] + rest, dotted) <==>
      EndsInZero(rest, dotted) || (LooseZero(line) && AllVanish(rest, dotted))
  {
    hide LooseZero, Vanishes;
    var all := [line] + rest;
    if EndsInZero(all, dotted) {
      var i: nat :| ZeroAt(all, dotted, i);
      forall k | i - 1 < k < |rest| && 0 <= k ensures Vanishes(rest[k], dotted) { assert rest[k] == all[k + 1]; }
      if i > 0 { assert ZeroAt(rest, dotted, i - 1); }
    }
    if EndsInZero(rest, dotted) {
      var i: nat :| ZeroAt(rest, dotted, i);
      assert ZeroAt(all, dotted, i + 1);
    }
    if LooseZero(line) && AllVanish(rest, dotted) {
      assert ZeroAt(all, dotted, 0);
    }
  }

  lemma FromIsVisible(line: string, dotted: seq<string>)
    requires IsFrom(COMPOSE, line)
    ensures !Vanishes(line, dotted) && !LooseZero(line)
  {
    hide KindOf, Trim, TrimRight;
    FromStays(line, dotted);
    FalsyIsOther();
    if Declares(line) {
      DeclaredKind(line, dotted);
    }
    KindOfTrimRight(line);
  }

  lemma ArgLineNoZero(key: string)
    ensures !LooseZero(ArgLine(key))
  {
    VisibleHead(ArgLine(key), 'A');
  }

  lemma {:induction false} MissingNoZero(keys: seq<string>, existing: seq<string>, rest: seq<string>,
                                         dotted: seq<string>)
    ensures EndsInZero(Missing(COMPOSE, keys, existing) + rest, dotted) <==> EndsInZero(rest, dotted)
  {
    hide EndsInZero, LooseZero, ArgLine;
    var m := Missing(COMPOSE, keys, existing);
    if keys == [] {
      assert m + rest == rest;
    } else {
      MissingNoZero(keys[1..], existing, rest, dotted);
      if keys[0] !in existing {
        var others := Missing(COMPOSE, keys[1..], existing);
        ArgLineNoZero(keys[0]);
        assert m + rest == [ArgLine(keys[0])] + (others + rest);
        EndsInZeroCons(ArgLine(keys[0]), others + rest, dotted);
      }
    }
  }

  lemma {:induction false} RewriteEndsInZero(lines: seq<string>, keys: seq<string>, dotted: seq<string>)
    ensures AllVanish(Rewrite(COMPOSE, lines, keys), dotted) <==> AllVanish(lines, dotted)
    ensures EndsInZero(Rewrite(COMPOSE, lines, keys), dotted) <==> EndsInZero(lines, dotted)
  {
    hide KindOf, Vanishes, LooseZero, Existing, EndsInZero, Missing;
    if lines != [] {
      var line, rest := lines[0], Rewrite(COMPOSE, lines[1..], keys);
      RewriteEndsInZero(lines[1..], keys, dotted);
      assert lines == [line] + lines[1..];
      EndsInZeroFirst(line, lines[1..], dotted);
      if IsFrom(COMPOSE, line) {
        var m := Missing(COMPOSE, keys, Existing(COMPOSE, lines[1..]));
        FromIsVisible(line, dotted);
        MissingNoZero(keys, Existing(COMPOSE, lines[1..]), rest, dotted);
        assert [line] + m + rest == [line] + (m + rest);
        EndsInZeroFirst(line, m + rest, dotted);
        assert !AllVanish(Rewrite(COMPOSE, lines, keys), dotted) by { assert Rewrite(COMPOSE, lines, keys)[0] == line; }
      } else {
        EndsInZeroFirst(line, rest, dotted);
        AllVanishFirst(line, rest, dotted);
        AllVanishFirst(line, lines[1..], dotted);
      }
    }
  }

  lemma AllVanishFirst(line: string, rest: seq<string>, dotted: seq<string>)
    ensures AllVanish([line] + rest, dotted) <==> Vanishes(line, dotted) && AllVanish(rest, dotted)
  {
    hide Vanishes;
    forall i | 0 <= i < |rest| ensures ([line] + rest)[i + 1] == rest[i] {}
    assert ([line] + rest)[0] == line;
  }

  // ------------------------------------------------------------- white space at the end, before the injection

  predicate LooseEnd(s: string) {
    s != "" && IsSpace(s[|s| - 1])
  }

  /** The line stays, and what the rewrite makes of it ends in white space. */
  predicate LooseOut(line: string, keys: seq<string>) {
    var r := LineOut(line, keys);
    r != [] && LooseEnd(r[0])
  }

  predicate AllDropped(lines: seq<string>, keys: seq<string>) {
    forall i :: 0 <= i < |lines| ==> LineOut(lines[i], keys) == []
  }

  predicate LooseLast(lines: seq<string>, keys: seq<string>) {
    lines != [] &&
    (LooseLast(lines[1..], keys) || (LooseOut(lines[0], keys) && AllDropped(lines[1..], keys)))
  }

  /** The last line that stays ends in white space, and the injection puts no line that stays behind it. */
  predicate EndsLoosely(lines: seq<string>, keys: seq<string>) {
    lines != [] &&
    (|| EndsLoosely(lines[1..], keys)
     || (LooseOut(lines[0], keys) && AllDropped(lines[1..], keys) && (IsFrom(COMPOSE, lines[0]) ==> Plain(keys) == [])))
  }

  lemma {:induction false} LooseLastSnoc(front: seq<string>, line: string, keys: seq<string>)
    ensures LooseLast(front + [line], keys) <==>
      LooseOut(line, keys) || (LineOut(line, keys) == [] && LooseLast(front, keys))
  {
    hide LooseOut, LineOut;
    if front == [] {
      assert [line][1..] == [];
    } else {
      assert (front + [line])[1..] == front[1..] + [line];
      LooseLastSnoc(front[1..], line, keys);
      DroppedSnoc(front[1..], line, keys);
    }
  }

  lemma DroppedSnoc(front: seq<string>, line: string, keys: seq<string>)
    ensures AllDropped(front + [line], keys) <==> AllDropped(front, keys) && LineOut(line, keys) == []
  {
    hide LineOut;
    forall i | 0 <= i < |front| ensures (front + [line])[i] == front[i] {}
    assert (front + [line])[|front|] == line;
  }

  lemma {:induction false} OutEndsLoosely(lines: seq<string>, keys: seq<string>)
    requires lines != [] && StartsWith(lines[0], SYNTAX_MARK)
    ensures var out := MountRuns(FilterDotted(lines, Dotted(keys)), keys);
      out != [] && (LooseEnd(Last(out)) <==> LooseLast(lines, keys))
    decreases |lines|
  {
    var n := |lines| - 1;
    var front, line, dotted := lines[..n], lines[n], Dotted(keys);
    assert lines == front + [line];
    hide Dotted, FilterDotted, MountRuns, StartsWith, LineOut, LooseLast, LooseEnd, Last;
    OutHead(lines, keys);
    LooseLastSnoc(front, line, keys);
    OutSnoc(front, line, keys);
    if n == 0 {
      SyntaxOut(line, keys);
      OneLineOut(line, keys);
      LastSnoc([], [line]);
    } else {
      OutEndsLoosely(front, keys);
      LineOutEnds(line, keys);
      LastSnoc(MountRuns(FilterDotted(front, dotted), keys), LineOut(line, keys));
    }
  }

  lemma LastSnoc(before: seq<string>, r: seq<string>)
    requires before + r != [] && |r| <= 1
    ensures if r == [] then before != [] && before + r == before else Last(before + r) == r[0]
  {
    if r == [] {
      assert before + r == before;
    }
  }

  lemma OneLineOut(line: string, keys: seq<string>)
    requires StartsWith(line, SYNTAX_MARK)
    ensures LineOut(line, keys) == [line] && !LooseLast([], keys)
  {
    SyntaxLineStays(line, Dotted(keys), keys);
  }

  lemma LooseLastFirst(line: string, rest: seq<string>, keys: seq<string>)
    ensures LooseLast([line] + rest, keys) <==>
      LooseLast(rest, keys) || (LooseOut(line, keys) && AllDropped(rest, keys))
  {
    hide LooseOut, AllDropped;
    assert ([line] + rest)[1..] == rest;
  }

  lemma AllDroppedConcat(a: seq<string>, b: seq<string>, keys: seq<string>)
    ensures AllDropped(a + b, keys) <==> AllDropped(a, keys) && AllDropped(b, keys)
  {
    hide LineOut;
    forall i | 0 <= i < |a| ensures (a + b)[i] == a[i] {}
    forall i | 0 <= i < |b| ensures (a + b)[|a| + i] == b[i] {}
  }

  lemma AllDroppedFirst(line: string, rest: seq<string>, keys: seq<string>)
    ensures AllDropped([line] + rest, keys) <==> LineOut(line, keys) == [] && AllDropped(rest, keys)
  {
    hide LineOut;
    AllDroppedConcat([line], rest, keys);
    assert [line][0] == line;
  }

  lemma InjectedOut(key: string, keys: seq<string>)
    requires ValidKey(key) && key in keys
    ensures !LooseOut(ArgLine(key), keys) && (LineOut(ArgLine(key), keys) == [] <==> '.' in key)
  {
    hide FilterLine, WithMounts, Dotted, ValidKey;
    DottedKeys(keys);
    InjectedLine(key, Dotted(keys));
    ArgLineDeclares(key);
    NotRun(ArgLine(key), keys);
  }

  predicate PlainIn(keys: seq<string>, existing: seq<string>) {
    forall key :: key in keys && '.' !in key ==> key in existing
  }

  lemma Nothing(keys: seq<string>, existing: seq<string>)
    ensures AllDropped([], keys) && PlainIn([], existing)
  {
  }

  lemma PlainInFirst(keys: seq<string>, existing: seq<string>)
    requires keys != []
    ensures PlainIn(keys, existing) <==> ('.' in keys[0] || keys[0] in existing) && PlainIn(keys[1..], existing)
  {
    assert keys == [keys[0]] + keys[1..];
  }

  lemma {:induction false} MissingLoose(some: seq<string>, keys: seq<string>, existing: seq<string>, rest: seq<string>)
    requires ValidKeys(some) && forall key :: key in some ==> key in keys
    ensures var m := Missing(COMPOSE, some, existing);
      && (LooseLast(m + rest, keys) <==> LooseLast(rest, keys))
      && (AllDropped(m, keys) <==> PlainIn(some, existing))
  {
    hide LooseOut, LineOut, ArgLine, ValidKey, LooseLast, AllDropped, PlainIn;
    var m := Missing(COMPOSE, some, existing);
    if some == [] {
      assert m + rest == rest;
      assert AllDropped([], keys) && PlainIn([], existing) by { Nothing(keys, existing); }
    } else {
      MissingLoose(some[1..], keys, existing, rest);
      if some[0] !in existing {
        var others := Missing(COMPOSE, some[1..], existing);
        InjectedOut(some[0], keys);
        assert m + rest == [ArgLine(some[0])] + (others + rest);
        LooseLastFirst(ArgLine(some[0]), others + rest, keys);
        AllDroppedFirst(ArgLine(some[0]), others, keys);
      }
      PlainInFirst(some, existing);
    }
  }

  lemma {:induction false} DroppedDeclareNoPlain(lines: seq<string>, keys: seq<string>, key: string)
    requires AllDropped(lines, keys) && ValidKey(key) && '.' !in key
    ensures key !in Existing(COMPOSE, lines)
  {
    hide KindOf, FilterLine, ValidKey, Dotted;
    if lines != [] {
      DroppedDeclareNoPlain(lines[1..], keys, key);
      PlainOut(lines[0], keys, key);
      hide LineOut;
    }
  }

  lemma PlainOut(line: string, keys: seq<string>, key: string)
    requires ValidKey(key) && '.' !in key
    ensures KindOf(line) == Arg(Some(key)) ==> LineOut(line, keys) != []
  {
    hide KindOf, FilterLine, ValidKey, Dotted;
    DottedKeys(keys);
    if KindOf(line) == Arg(Some(key)) {
      PlainKeyStays(line, key, Dotted(keys));
    }
  }

  lemma FromIsNotDropped(line: string, keys: seq<string>)
    requires IsFrom(COMPOSE, line)
    ensures LineOut(line, keys) != []
  {
    hide KindOf, FilterLine;
    FromStays(line, Dotted(keys));
  }

  lemma {:induction false} RewriteDropped(lines: seq<string>, keys: seq<string>)
    ensures AllDropped(Rewrite(COMPOSE, lines, keys), keys) <==> AllDropped(lines, keys)
  {
    hide KindOf, LineOut, Missing;
    if lines != [] {
      var line, rest, out := lines[0], Rewrite(COMPOSE, lines[1..], keys), Rewrite(COMPOSE, lines, keys);
      RewriteDropped(lines[1..], keys);
      assert out[0] == line;
      if IsFrom(COMPOSE, line) {
        FromIsNotDropped(line, keys);
      } else {
        AllDroppedConcat([line], rest, keys);
        AllDroppedConcat([line], lines[1..], keys);
        assert lines == [line] + lines[1..];
      }
    }
  }

  lemma {:induction false} RewriteEndsLoosely(lines: seq<string>, keys: seq<string>)
    requires ValidKeys(keys)
    ensures LooseLast(Rewrite(COMPOSE, lines, keys), keys) <==> EndsLoosely(lines, keys)
  {
    hide KindOf, LooseOut, LineOut, Missing, LooseLast, ValidKey, AllDropped, Existing, Plain;
    if lines == [] {
      assert !LooseLast([], keys) by { NothingLoose(keys); }
    } else {
      var line, rest := lines[0], Rewrite(COMPOSE, lines[1..], keys);
      RewriteEndsLoosely(lines[1..], keys);
      RewriteDropped(lines[1..], keys);
      if IsFrom(COMPOSE, line) {
        var existing := Existing(COMPOSE, lines[1..]);
        var m := Missing(COMPOSE, keys, existing);
        MissingLoose(keys, keys, existing, rest);
        assert [line] + m + rest == [line] + (m + rest);
        LooseLastFirst(line, m + rest, keys);
        AllDroppedConcat(m, rest, keys);
        if AllDropped(lines[1..], keys) {
          NoPlainBehind(lines[1..], keys);
        }
      } else {
        LooseLastFirst(line, rest, keys);
      }
    }
  }

  lemma NothingLoose(keys: seq<string>)
    ensures !LooseLast([], keys)
  {
  }

  lemma NoPlainBehind(lines: seq<string>, keys: seq<string>)
    requires ValidKeys(keys) && AllDropped(lines, keys)
    ensures PlainIn(keys, Existing(COMPOSE, lines)) <==> Plain(keys) == []
  {
    hide KindOf, LineOut, ValidKey, AllDropped, Existing;
    forall key | key in keys && '.' !in key ensures key !in Existing(COMPOSE, lines) {
      assert ValidKey(key);
      DroppedDeclareNoPlain(lines, keys, key);
    }
    if Plain(keys) != [] {
      var key := Plain(keys)[0];
      assert key in Plain(keys);
    }
  }

  lemma WrittenEndsLoosely(lines: seq<string>, keys: seq<string>)
    requires ValidKeys(keys) && lines != [] && Lines(Rewrite(COMPOSE, lines, keys)) && Dotted(keys) != []
    ensures var out := Pipeline(Rewrite(COMPOSE, lines, keys), keys);
      out != [] && (TrimRight(Implode(out)) == Implode(out) <==> !EndsLoosely(lines, keys))
  {
    hide *;
    var all := Rewrite(COMPOSE, lines, keys);
    WrittenRead(all, keys);
    PipelineIs(all, keys);
    SyntaxStarts(all);
    OutEndsLoosely(WithSyntax(all), keys);
    SyntaxLoose(all, keys);
    RewriteEndsLoosely(lines, keys);
    LastChar(Pipeline(all, keys));
  }

  lemma SyntaxStarts(lines: seq<string>)
    requires lines != []
    ensures WithSyntax(lines) != [] && StartsWith(WithSyntax(lines)[0], SYNTAX_MARK)
  {
  }

  lemma SyntaxLoose(lines: seq<string>, keys: seq<string>)
    requires lines != []
    ensures LooseLast(WithSyntax(lines), keys) <==> LooseLast(lines, keys)
  {
    if WithSyntax(lines) != lines {
      hide LooseLast, AllDropped, FilterLine, WithMounts;
      SyntaxLine();
      SyntaxLineFiltered(SYNTAX_LINE, Dotted(keys), keys);
      assert LineOut(SYNTAX_LINE, keys) == [SYNTAX_LINE];
      LooseLastFirst(SYNTAX_LINE, lines, keys);
    }
  }

  lemma LastChar(out: seq<string>)
    requires out != [] && Lines(out) && Last(out) != ""
    ensures TrimRight(Implode(out)) == Implode(out) <==> !LooseEnd(Last(out))
  {
    hide IsSpace, TrimRight, Implode, OneLine;
    ImplodeLast(out);
    TrimRightIsSame(Implode(out));
  }

  // ------------------------------------------------------------- the result

  /** Two services that share a Dockerfile change it like one, with one family of exceptions: a key has a dot,
      and either the stages declare all such keys in lines that the filter does not see, and the file ends in a
      loose zero; or they do not, so that the ARG lines come and go again, and the file that the first service
      wrote ends in white space, which the second one drops. */
  lemma SecondServiceKeepsFile(content: string, keys: seq<string>)
    requires ValidKeys(keys)
    ensures var written, lines := ServiceFile(content, keys), Explode(Trim(content));
      ServiceFile(written, keys) == written <==>
        || Skipped(content, keys) || Dotted(keys) == []
        || if StillDeclared(lines, keys) then !EndsInZero(lines, Dotted(keys)) else !EndsLoosely(lines, keys)
  {
    hide *;
    if Skipped(content, keys) {
      SkippedStays(content, keys);
    } else {
      var lines := Explode(Trim(content));
      var all := Rewrite(COMPOSE, lines, keys);
      SecondService(content, keys);
      InjectedRead(content, keys);
      ReadLines(InjectedFile(content, keys));
      ReadLines(content);
      if Dotted(keys) != [] {
        NotEmptyLines(lines);
        RewriteEndsInZero(lines, keys, Dotted(keys));
        if Modified(all, keys) {
          ReadStillDeclared(lines, keys);
          PipelineEndsInZero(all, keys);
          WrittenEndsLoosely(lines, keys);
        } else {
          UnmodifiedDeclares(content, keys);
        }
      }
    }
  }

  lemma NotEmptyLines(lines: seq<string>)
    requires Lines(lines)
    ensures lines != []
  {
  }

  lemma SkippedStays(content: string, keys: seq<string>)
    requires Skipped(content, keys)
    ensures ServiceFile(content, keys) == content
  {
  }

  lemma UnmodifiedDeclares(content: string, keys: seq<string>)
    requires ValidKeys(keys) && !Skipped(content, keys) && Dotted(keys) != []
    requires var all := Rewrite(COMPOSE, Explode(Trim(content)), keys); all != [] && !Modified(all, keys)
    ensures var lines := Explode(Trim(content)); StillDeclared(lines, keys) && !EndsInZero(lines, Dotted(keys))
  {
    hide *;
    var lines, dotted := Explode(Trim(content)), Dotted(keys);
    var all := Rewrite(COMPOSE, lines, keys);
    InjectedRead(content, keys);
    DottedKeys(keys);
    DeclaredFewer(all, keys, dotted);
    SyntaxDeclares(all, dotted);
    UnmodifiedFilter(all, keys);
    SyntaxFiltered(all, dotted, dotted);
    FilteredDeclares(lines, keys, dotted);
    StillDeclaredMeans(lines, keys);
    RewriteEndsInZero(lines, keys, dotted);
    if EndsInZero(all, dotted) {
      ZeroIsModified(InjectedFile(content, keys), keys);
    }
  }

  lemma UnmodifiedFilter(lines: seq<string>, keys: seq<string>)
    requires lines != [] && Dotted(keys) != [] && !Modified(lines, keys)
    ensures FilterDotted(WithSyntax(lines), Dotted(keys)) == WithSyntax(lines)
  {
  }

  /** Without dotted keys two services that share a Dockerfile always change it like one. */
  lemma SecondServiceKeepsFileWithoutDots(content: string, keys: seq<string>)
    requires ValidKeys(keys) && Dotted(keys) == []
    ensures ServiceFile(ServiceFile(content, keys), keys) == ServiceFile(content, keys)
  {
    SecondServiceKeepsFile(content, keys);
  }

  const BARE_RUN: seq<string> := ["FROM a", "RUN"]

  lemma BareRunRead()
    ensures Explode(Trim(Implode(BARE_RUN))) == BARE_RUN
  {
    ReadBack(BARE_RUN);
  }

  lemma BareRunKinds()
    ensures IsFrom(COMPOSE, BARE_RUN[0]) && KindOf("RUN") == Other && !Declares("RUN") && IsRun("RUN")
  {
    hide *;
    FirstIsFrom();
    BareRun();
    RunIsOther("RUN");
  }

  lemma FirstIsFrom()
    ensures IsFrom(COMPOSE, BARE_RUN[0])
  {
    VisibleFrom(BARE_RUN[0]);
  }

  lemma VisibleFrom(line: string)
    requires |line| > 4 && line[0] == 'F' && line[1] == 'R' && line[2] == 'O' && line[3] == 'M'
    requires !IsSpace(line[|line| - 1])
    ensures IsFrom(COMPOSE, line)
  {
    assert Trim(line) == line;
    hide Trim, IsSpace;
    assert line[..4] == "FROM";
  }

  lemma BareRun()
    ensures !Declares("RUN") && IsRun("RUN")
  {
    NotDeclared("RUN");
    hide Declares;
  }

  lemma BareRunIsLoose(keys: seq<string>)
    requires !Declares("RUN") && IsRun("RUN")
    ensures LooseOut("RUN", keys)
  {
    NoMount();
    BlankRest();
    hide TrimLeft, Trim, Mounts, Contains, IsRun, Declares, Dotted;
    assert FilterLine("RUN", Dotted(keys)) == ["RUN"];
    assert WithMounts("RUN", keys) == "RUN " + Mounts(keys) + " ";
    hide FilterLine, WithMounts;
    assert LineOut("RUN", keys) == [WithMounts("RUN", keys)];
  }

  lemma NoMount()
    ensures !Contains("RUN", MOUNT_MARK)
  {
  }

  lemma BlankRest()
    ensures TrimLeft("RUN") == "RUN" && Trim("RUN"[3..]) == ""
  {
    assert Trim("") == "";
  }

  /** With any dotted key, a Dockerfile that ends in a bare RUN is changed by the second service: the mounts of
      that line end in a space. */
  lemma SecondServiceChangesFile(keys: seq<string>)
    requires ValidKeys(keys) && Dotted(keys) != []
    ensures var content := Implode(BARE_RUN);
      ServiceFile(ServiceFile(content, keys), keys) != ServiceFile(content, keys)
  {
    var content, dotted := Implode(BARE_RUN), Dotted(keys);
    assert keys != [];
    hide *;
    BareRunRead();
    BareRunKinds();
    BareRunIsLoose(keys);
    BareRunEndsLoosely(keys);
    BareRunDeclaresNothing(dotted);
    StillDeclaredMeans(BARE_RUN, keys);
    FromIsThere(BARE_RUN, 0);
    FalsyHasNoFrom(content);
    NotSkipped(content, keys);
    SecondServiceKeepsFile(content, keys);
  }

  lemma FromIsThere(lines: seq<string>, i: nat)
    requires i < |lines| && IsFrom(COMPOSE, lines[i])
    ensures HasFrom(lines)
  {
  }

  lemma NotSkipped(content: string, keys: seq<string>)
    requires content != "" && content != "0" && keys != [] && HasFrom(Explode(Trim(content)))
    ensures !Skipped(content, keys)
  {
  }

  lemma BareRunEndsLoosely(keys: seq<string>)
    requires LooseOut("RUN", keys) && KindOf("RUN") == Other
    ensures EndsLoosely(BARE_RUN, keys)
  {
    hide LooseOut, LineOut, KindOf;
    assert BARE_RUN[1..] == ["RUN"] && ["RUN"][1..] == [];
    assert EndsLoosely(["RUN"], keys);
  }

  lemma BareRunDeclaresNothing(dotted: seq<string>)
    requires dotted != [] && IsFrom(COMPOSE, BARE_RUN[0]) && KindOf("RUN") == Other && !Declares("RUN")
    ensures !Declared(FilterDotted(BARE_RUN, dotted), dotted)
  {
    hide KindOf, Declares;
    FromStays(BARE_RUN[0], dotted);
    assert FilterLine("RUN", dotted) == ["RUN"];
    hide FilterLine;
    assert BARE_RUN[1..] == ["RUN"] && ["RUN"][1..] == [];
    assert FilterDotted(["RUN"], dotted) == ["RUN"];
    assert FilterDotted(BARE_RUN, dotted) == [BARE_RUN[0]] + ["RUN"];
    assert dotted[0] in dotted && Existing(COMPOSE, ["RUN"]) == [];
    assert ([BARE_RUN[0]] + ["RUN"])[1..] == ["RUN"];
  }
}
