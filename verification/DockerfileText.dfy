/** The text of a Dockerfile as the deployment job handles it: trimmed, split into lines, joined again. */
module DockerfileText {

  import opened Wrappers

  /** The characters that trim() removes. */
  predicate IsSpace(c: char) {
    c == ' ' || c == '\t' || c == '\n' || c == '\r' || c as int == 11 || c as int == 0
  }

  function TrimLeft(s: string): (r: string)
    ensures |r| <= |s| && r == s[|s| - |r|..]
    ensures r != "" ==> !IsSpace(r[0])
    ensures forall i :: 0 <= i < |s| - |r| ==> IsSpace(s[i])
    ensures s != "" && !IsSpace(s[|s| - 1]) ==> r != ""
  {
    if s != "" && IsSpace(s[0]) then TrimLeft(s[1..]) else s
  }

  function TrimRight(s: string): (r: string)
    ensures |r| <= |s| && r == s[..|r|]
    ensures r != "" ==> !IsSpace(r[|r| - 1])
    ensures forall i :: |r| <= i < |s| ==> IsSpace(s[i])
    ensures s != "" && !IsSpace(s[0]) ==> r != ""
  {
    if s != "" && IsSpace(s[|s| - 1]) then TrimRight(s[..|s| - 1]) else s
  }

  function Trim(s: string): (r: string)
    ensures r != "" ==> !IsSpace(r[0]) && !IsSpace(r[|r| - 1])
    ensures s == "" || (!IsSpace(s[0]) && !IsSpace(s[|s| - 1])) ==> r == s
  {
    TrimLeft(TrimRight(s))
  }

  predicate StartsWith(s: string, prefix: string) {
    |prefix| <= |s| && s[..|prefix|] == prefix
  }

  lemma StartsWithHead(s: string, prefix: string)
    requires prefix != ""
    ensures StartsWith(s, prefix) ==> s != "" && s[0] == prefix[0]
  {
    if StartsWith(s, prefix) {
      assert s[0] == s[..|prefix|][0];
    }
  }

  predicate OneLine(s: string) {
    forall i :: 0 <= i < |s| ==> s[i] != '\n'
  }

  predicate Lines(lines: seq<string>) {
    lines != [] && forall i :: 0 <= i < |lines| ==> OneLine(lines[i])
  }

  /** Splits at every newline; the result has at least one line. */
  function Explode(s: string): (lines: seq<string>)
    ensures Lines(lines)
    decreases |s|
  {
    if s == "" then [""]
    else
      var rest := Explode(s[1..]);
      if s[0] == '\n' then [""] + rest else [[s[0]] + rest[0]] + rest[1..]
  }

  function Implode(lines: seq<string>): string
    requires lines != []
  {
    if |lines| == 1 then lines[0] else lines[0] + "\n" + Implode(lines[1..])
  }

  lemma {:induction false} ImplodeExplode(s: string)
    ensures Implode(Explode(s)) == s
    decreases |s|
  {
    if s != "" {
      var rest := Explode(s[1..]);
      ImplodeExplode(s[1..]);
      if s[0] == '\n' {
        assert ([""] + rest)[1..] == rest;
        assert s == "\n" + s[1..];
      } else {
        var lines := [[s[0]] + rest[0]] + rest[1..];
        assert s == [s[0]] + s[1..];
        if |rest| == 1 {
          assert lines == [[s[0]] + rest[0]];
        } else {
          assert lines[1..] == rest[1..];
          assert [s[0]] + (rest[0] + "\n" + Implode(rest[1..])) == ([s[0]] + rest[0]) + "\n" + Implode(rest[1..]);
        }
      }
    }
  }

  lemma {:induction false} ExplodeImplode(lines: seq<string>)
    requires Lines(lines)
    ensures Explode(Implode(lines)) == lines
    decreases |lines|, if lines == [] then 0 else |lines[0]|
  {
    if |lines| == 1 && lines[0] == "" {
    } else if lines[0] == "" {
      assert Implode(lines) == "\n" + Implode(lines[1..]);
      assert Implode(lines)[1..] == Implode(lines[1..]);
      ExplodeImplode(lines[1..]);
    } else {
      var tail := [lines[0][1..]] + lines[1..];
      var s := Implode(lines);
      assert s[0] == lines[0][0] && s[1..] == Implode(tail) by {
        assert tail[1..] == lines[1..];
        if |lines| > 1 {
          assert s[1..] == lines[0][1..] + "\n" + Implode(lines[1..]);
        }
      }
      assert Lines(tail) by {
        forall i | 0 <= i < |tail| ensures OneLine(tail[i]) {
          if i > 0 { assert tail[i] == lines[i]; } else { assert OneLine(lines[0]); }
        }
      }
      ExplodeImplode(tail);
      assert OneLine(lines[0]);
      assert [s[0]] + tail[0] == lines[0];
      assert [lines[0]] + tail[1..] == lines;
    }
  }

  /** A file whose text trim() leaves alone and that is not blank. */
  predicate Tight(lines: seq<string>) {
    && Lines(lines)
    && lines[0] != "" && !IsSpace(lines[0][0])
    && lines[|lines| - 1] != "" && !IsSpace(lines[|lines| - 1][|lines[|lines| - 1]| - 1])
  }

  /** The ends of the text are the ends of its first and last line. */
  lemma {:induction false} ImplodeEnds(lines: seq<string>)
    requires Lines(lines) && lines[0] != "" && lines[|lines| - 1] != ""
    ensures var s := Implode(lines); var last := lines[|lines| - 1];
      s != "" && s[0] == lines[0][0] && s[|s| - 1] == last[|last| - 1]
  {
    if |lines| > 1 {
      ImplodeLast(lines);
    }
  }

  lemma {:induction false} ImplodeLast(lines: seq<string>)
    requires Lines(lines) && lines[|lines| - 1] != ""
    ensures var s := Implode(lines); var last := lines[|lines| - 1];
      s != "" && s[|s| - 1] == last[|last| - 1]
  {
    hide OneLine;
    if |lines| > 1 {
      var rest := Implode(lines[1..]);
      ImplodeLast(lines[1..]);
      assert lines[1..][|lines| - 2] == lines[|lines| - 1];
      assert Implode(lines) == (lines[0] + "\n") + rest;
    }
  }

  /** Reading back the lines of a tight file gives these lines. */
  lemma ReadBack(lines: seq<string>)
    requires Tight(lines)
    ensures Explode(Trim(Implode(lines))) == lines
  {
    ImplodeEnds(lines);
    ExplodeImplode(lines);
  }

  /** What is read from a file that is not blank is tight. */
  lemma ReadIsTight(s: string)
    requires Trim(s) != ""
    ensures Tight(Explode(Trim(s)))
  {
    ExplodeEnds(Trim(s));
  }

  lemma {:induction false} ExplodeEnds(s: string)
    requires s != "" && !IsSpace(s[|s| - 1])
    ensures var lines := Explode(s); var last := lines[|lines| - 1];
      && last != "" && last[|last| - 1] == s[|s| - 1]
      && (s[0] != '\n' ==> lines[0] != "" && lines[0][0] == s[0])
    decreases |s|
  {
    hide OneLine;
    if |s| == 1 {
      assert s[1..] == "" && s[0] != '\n';
      assert Explode(s[1..]) == [""];
      assert [s[0]] + "" == [s[0]];
    } else {
      var rest := Explode(s[1..]);
      assert s[1..][|s| - 2] == s[|s| - 1];
      ExplodeEnds(s[1..]);
      if s[0] == '\n' {
        LastOfBlankFirst(rest);
      } else {
        LastOfExtended(s[0], rest);
      }
    }
  }

  lemma LastOfExtended(c: char, rest: seq<string>)
    requires rest != [] && rest[|rest| - 1] != ""
    ensures var lines := [[c] + rest[0]] + rest[1..]; var last := lines[|lines| - 1];
      last != "" && last[|last| - 1] == rest[|rest| - 1][|rest[|rest| - 1]| - 1]
  {
  }

  lemma LastOfBlankFirst(rest: seq<string>)
    requires rest != []
    ensures var lines := [""] + rest; lines[|lines| - 1] == rest[|rest| - 1]
  {
  }

  // ------------------------------------------------------------- reading back a file with a loose end

  /** Without its blank last lines, and without the spaces at the end of the last line that is left. */
  function TrimTail(lines: seq<string>): (r: seq<string>)
    requires lines != []
    ensures r != [] && |r| <= |lines|
    ensures r[..|r| - 1] == lines[..|r| - 1] && r[|r| - 1] == TrimRight(lines[|r| - 1])
    ensures |r| > 1 ==> r[|r| - 1] != ""
  {
    var n := |lines| - 1;
    if n > 0 && TrimRight(lines[n]) == "" then TrimTail(lines[..n]) else lines[..n] + [TrimRight(lines[n])]
  }

  lemma TrimTailAt(lines: seq<string>, i: nat)
    requires lines != [] && i < |TrimTail(lines)|
    ensures var r := TrimTail(lines); r[i] == if i == |r| - 1 then TrimRight(lines[i]) else lines[i]
  {
    var r := TrimTail(lines);
    if i < |r| - 1 {
      assert r[i] == r[..|r| - 1][i];
    }
  }

  lemma {:induction false} TrimRightConcat(a: string, b: string)
    ensures TrimRight(a + b) == if TrimRight(b) == "" then TrimRight(a) else a + TrimRight(b)
    decreases |b|
  {
    if b == "" {
      assert a + b == a;
    } else {
      var n := |b| - 1;
      assert (a + b)[..|a + b| - 1] == a + b[..n];
      if IsSpace(b[n]) {
        TrimRightConcat(a, b[..n]);
      }
    }
  }

  lemma {:induction false} ImplodeSnoc(lines: seq<string>)
    requires |lines| > 1
    ensures Implode(lines) == Implode(lines[..|lines| - 1]) + "\n" + lines[|lines| - 1]
  {
    var n := |lines| - 1;
    if n > 1 {
      ImplodeSnoc(lines[1..]);
      assert lines[1..][..n - 1] == lines[..n][1..];
    }
  }

  lemma {:induction false} TrimRightImplode(lines: seq<string>)
    requires lines != []
    ensures TrimRight(Implode(lines)) == Implode(TrimTail(lines))
    decreases |lines|
  {
    var n := |lines| - 1;
    if n > 0 {
      var last, before := lines[n], Implode(lines[..n]);
      ImplodeSnoc(lines);
      TrimRightConcat(before + "\n", last);
      if TrimRight(last) == "" {
        TrimRightConcat(before, "\n");
        TrimRightImplode(lines[..n]);
      } else {
        var r := lines[..n] + [TrimRight(last)];
        ImplodeSnoc(r);
        assert r[..n] == lines[..n];
      }
    }
  }

  lemma TrimTailKeepsHead(lines: seq<string>)
    requires Lines(lines) && lines[0] != "" && !IsSpace(lines[0][0])
    ensures var r := TrimTail(lines); Lines(r) && r[0] != "" && r[0][0] == lines[0][0]
  {
    hide IsSpace;
    var r := TrimTail(lines);
    var k := |r| - 1;
    forall i | 0 <= i < |r| ensures OneLine(r[i]) {
      assert OneLine(lines[i]);
      assert i < k ==> r[i] == r[..k][i] == lines[i];
    }
    if k > 0 {
      assert r[0] == r[..k][0];
    }
  }

  /** Reading back the lines of a file whose first line starts with a visible character. */
  lemma ReadBackLoose(lines: seq<string>)
    requires Lines(lines) && lines[0] != "" && !IsSpace(lines[0][0])
    ensures Explode(Trim(Implode(lines))) == TrimTail(lines)
    ensures Lines(TrimTail(lines)) && TrimTail(lines)[0] != ""
  {
    hide Explode, TrimTail, TrimRight, IsSpace, OneLine;
    TrimTailKeepsHead(lines);
    var r := TrimTail(lines);
    TrimRightImplode(lines);
    var text := Implode(r);
    assert text[0] == r[0][0];
    assert TrimLeft(text) == text;
    ExplodeImplode(r);
  }

  // ------------------------------------------------------------- variable names

  predicate KeyStart(c: char) {
    'A' <= c <= 'Z' || 'a' <= c <= 'z' || c == '_'
  }

  /** Names of build-time variables that are let through to a Dockerfile. */
  predicate ValidKey(key: string) {
    && key != "" && KeyStart(key[0])
    && forall i :: 0 < i < |key| ==> KeyStart(key[i]) || '0' <= key[i] <= '9' || key[i] == '.'
  }

  predicate ValidKeys(keys: seq<string>) {
    forall i :: 0 <= i < |keys| ==> ValidKey(keys[i])
  }

  lemma KeyChars(key: string)
    requires ValidKey(key)
    ensures forall i :: 0 <= i < |key| ==> key[i] != '=' && !IsSpace(key[i])
  {
  }
}
