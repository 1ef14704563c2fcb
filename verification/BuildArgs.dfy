/** The insertion of all build arguments after every FROM line, done in place from the last FROM line to
    the first and from the last argument to the first. */
module BuildArgs {
  import opened DockerfileText
  import opened Wrappers

  // ------------------------------------------------------------- what the splices amount to

  /** The file with the whole argument list after each FROM line. */
  function AfterEachFrom<L>(isFrom: L -> bool, lines: seq<L>, args: seq<L>): seq<L> {
    if lines == [] then []
    else [lines[0]] + (if isFrom(lines[0]) then args else []) + AfterEachFrom(isFrom, lines[1..], args)
  }

  function CountFrom<L>(isFrom: L -> bool, lines: seq<L>): nat {
    if lines == [] then 0 else (if isFrom(lines[0]) then 1 else 0) + CountFrom(isFrom, lines[1..])
  }

  /** The indices of the FROM lines, in order. */
  ghost predicate FromIndices<L>(isFrom: L -> bool, lines: seq<L>, froms: seq<nat>, end: nat)
    requires end <= |lines|
  {
    && (forall i :: 0 <= i < |froms| ==> froms[i] < end && isFrom(lines[froms[i]]))
    && (forall i, j :: 0 <= i < j < |froms| ==> froms[i] < froms[j])
    && (forall k :: 0 <= k < end && isFrom(lines[k]) ==> k in froms)
  }

  lemma {:induction false} NoFromNoChange<L>(isFrom: L -> bool, front: seq<L>, rest: seq<L>, args: seq<L>)
    requires forall i :: 0 <= i < |front| ==> !isFrom(front[i])
    ensures AfterEachFrom(isFrom, front + rest, args) == front + AfterEachFrom(isFrom, rest, args)
  {
    if front == [] {
      assert front + rest == rest;
    } else {
      assert (front + rest)[1..] == front[1..] + rest;
      NoFromNoChange(isFrom, front[1..], rest, args);
    }
  }

  /** One FROM line at `f`, no other before `end`. */
  lemma OneMoreFrom<L>(isFrom: L -> bool, lines: seq<L>, args: seq<L>, f: nat, end: nat)
    requires f < end <= |lines| && isFrom(lines[f])
    requires forall k :: f < k < end ==> !isFrom(lines[k])
    ensures AfterEachFrom(isFrom, lines[f..], args)
         == [lines[f]] + args + (lines[f + 1..end] + AfterEachFrom(isFrom, lines[end..], args))
  {
    var gap := lines[f + 1..end];
    assert lines[f..][1..] == gap + lines[end..];
    NoFromNoChange(isFrom, gap, lines[end..], args);
  }

  method FindFromInstructionLines<L>(isFrom: L -> bool, lines: seq<L>) returns (froms: seq<nat>)
    ensures FromIndices(isFrom, lines, froms, |lines|)
  {
    froms := [];
    for index := 0 to |lines|
      invariant FromIndices(isFrom, lines, froms, index)
    {
      ghost var before := froms;
      if isFrom(lines[index]) {
        froms := froms + [index];
        assert froms[|before|] == index;
      }
      assert forall k :: k in before ==> k in froms;
    }
  }

  /** The inner loop: the list, last argument first, spliced in at one index. */
  method SpliceAll<L>(lines: seq<L>, at: nat, args: seq<L>) returns (dockerfile: seq<L>)
    requires at <= |lines|
    ensures dockerfile == lines[..at] + args + lines[at..]
  {
    dockerfile := lines;
    var j := |args|;
    while j > 0
      invariant 0 <= j <= |args|
      invariant dockerfile == lines[..at] + args[j..] + lines[at..]
    {
      j := j - 1;
      var next := dockerfile[..at] + [args[j]] + dockerfile[at..];
      assert next == lines[..at] + args[j..] + lines[at..] by {
        assert args[j..] == [args[j]] + args[j + 1..];
        assert dockerfile[at..] == args[j + 1..] + lines[at..];
      }
      dockerfile := next;
    }
  }

  /** A file that is done from `end` on is, after the splice at the FROM line before, done from there. */
  lemma SpliceStep<L>(isFrom: L -> bool, lines: seq<L>, args: seq<L>, f: nat, end: nat)
    requires f < end <= |lines| && isFrom(lines[f])
    requires forall k :: f < k < end ==> !isFrom(lines[k])
    ensures var before := lines[..end] + AfterEachFrom(isFrom, lines[end..], args);
      before[..f + 1] + args + before[f + 1..] == lines[..f] + AfterEachFrom(isFrom, lines[f..], args)
  {
    hide AfterEachFrom;
    OneMoreFrom(isFrom, lines, args, f, end);
    var done := AfterEachFrom(isFrom, lines[end..], args);
    var before := lines[..end] + done;
    assert before[f + 1..] == lines[f + 1..end] + done;
    assert before[..f + 1] == lines[..f] + [lines[f]];
  }

  /** What the loop holds when the file is done from line `end` on and the first `i` FROM lines are left. */
  ghost predicate Held<L>(isFrom: L -> bool, lines: seq<L>, args: seq<L>, froms: seq<nat>, i: nat, end: nat,
                          dockerfile: seq<L>) {
    && i <= |froms| && end <= |lines|
    && dockerfile == lines[..end] + AfterEachFrom(isFrom, lines[end..], args)
    && (forall k :: 0 <= k < i ==> froms[k] < end)
    && (forall k :: 0 <= k < end && isFrom(lines[k]) ==> k in froms[..i])
  }

  lemma HeldStarts<L>(isFrom: L -> bool, lines: seq<L>, args: seq<L>, froms: seq<nat>)
    requires FromIndices(isFrom, lines, froms, |lines|)
    ensures Held(isFrom, lines, args, froms, |froms|, |lines|, lines)
  {
    assert lines[|lines|..] == [] && froms[..|froms|] == froms;
  }

  lemma HeldEnds<L>(isFrom: L -> bool, lines: seq<L>, args: seq<L>, froms: seq<nat>, end: nat, dockerfile: seq<L>)
    requires Held(isFrom, lines, args, froms, 0, end, dockerfile)
    ensures dockerfile == AfterEachFrom(isFrom, lines, args)
  {
    NoFromNoChange(isFrom, lines[..end], lines[end..], args);
    assert lines[..end] + lines[end..] == lines;
  }

  lemma HeldStep<L>(isFrom: L -> bool, lines: seq<L>, args: seq<L>, froms: seq<nat>, i: nat, end: nat,
                    dockerfile: seq<L>)
    requires FromIndices(isFrom, lines, froms, |lines|) && 0 < i
    requires Held(isFrom, lines, args, froms, i, end, dockerfile)
    ensures var f := froms[i - 1];
      && f + 1 <= |dockerfile|
      && Held(isFrom, lines, args, froms, i - 1, f, dockerfile[..f + 1] + args + dockerfile[f + 1..])
  {
    var f := froms[i - 1];
    assert forall j :: 0 <= j < i ==> froms[..i][j] <= f;
    assert forall k :: f < k < end ==> k !in froms[..i];
    SpliceStep(isFrom, lines, args, f, end);
    forall k | 0 <= k < f && isFrom(lines[k]) ensures k in froms[..i - 1] {
      var j :| 0 <= j < i && froms[j] == k;
      assert froms[..i - 1][j] == k;
    }
    hide AfterEachFrom;
  }

  /** The splices put the whole list after each FROM line. Going backwards keeps the indices found
      before the first splice valid for the FROM lines still to come. */
  method InsertAfterFroms<L>(isFrom: L -> bool, lines: seq<L>, args: seq<L>) returns (dockerfile: seq<L>)
    ensures dockerfile == AfterEachFrom(isFrom, lines, args)
  {
    dockerfile := lines;
    var froms := FindFromInstructionLines(isFrom, lines);
    HeldStarts(isFrom, lines, args, froms);
    hide FromIndices, Held, AfterEachFrom;
    var i := |froms|;
    ghost var end: nat := |lines|;
    while i > 0
      invariant 0 <= i <= |froms|
      invariant Held(isFrom, lines, args, froms, i, end, dockerfile)
    {
      HeldStep(isFrom, lines, args, froms, i, end, dockerfile);
      i := i - 1;
      dockerfile := SpliceAll(dockerfile, froms[i] + 1, args);
      end := froms[i];
    }
    HeldEnds(isFrom, lines, args, froms, end, dockerfile);
  }

  // ------------------------------------------------------------- consequences

  /** Every FROM line adds the whole list, nothing else adds or removes a line. */
  lemma {:induction false} InsertedLength<L>(isFrom: L -> bool, lines: seq<L>, args: seq<L>)
    ensures |AfterEachFrom(isFrom, lines, args)| == |lines| + CountFrom(isFrom, lines) * |args|
  {
    if lines != [] {
      InsertedLength(isFrom, lines[1..], args);
      var c := CountFrom(isFrom, lines[1..]);
      assert (c + 1) * |args| == c * |args| + |args|;
    }
  }

  /** The line that `lines[j]` has become. */
  function NewIndex<L>(isFrom: L -> bool, lines: seq<L>, args: seq<L>, j: nat): nat
    requires j <= |lines|
  {
    j + CountFrom(isFrom, lines[..j]) * |args|
  }

  lemma NewIndexStep<L>(isFrom: L -> bool, lines: seq<L>, args: seq<L>, j: nat)
    requires 0 < j <= |lines|
    ensures NewIndex(isFrom, lines, args, j)
         == NewIndex(isFrom, lines[1..], args, j - 1) + (if isFrom(lines[0]) then 1 + |args| else 1)
  {
    assert lines[..j][1..] == lines[1..][..j - 1];
    var c := CountFrom(isFrom, lines[1..][..j - 1]);
    assert (c + 1) * |args| == c * |args| + |args|;
  }

  lemma Shifted<L>(front: seq<L>, rest: seq<L>, at: nat, n: nat)
    requires at + n <= |rest|
    ensures (front + rest)[|front| + at..|front| + at + n] == rest[at..at + n]
  {
  }

  /** Line `j` moves down by the list once per FROM line before it; a FROM line is followed by the list. */
  lemma {:induction false} WhereLinesGo<L>(isFrom: L -> bool, lines: seq<L>, args: seq<L>, j: nat)
    requires j < |lines|
    ensures var at, out := NewIndex(isFrom, lines, args, j), AfterEachFrom(isFrom, lines, args);
      var block := [lines[j]] + if isFrom(lines[j]) then args else [];
      at + |block| <= |out| && out[at..at + |block|] == block
  {
    var rest := AfterEachFrom(isFrom, lines[1..], args);
    if j == 0 {
      assert lines[..0] == [];
    } else {
      var block := [lines[j]] + if isFrom(lines[j]) then args else [];
      var front := [lines[0]] + if isFrom(lines[0]) then args else [];
      var at := NewIndex(isFrom, lines[1..], args, j - 1);
      WhereLinesGo(isFrom, lines[1..], args, j - 1);
      NewIndexStep(isFrom, lines, args, j);
      hide NewIndex;
      assert AfterEachFrom(isFrom, lines, args) == front + rest;
      Shifted(front, rest, at, |block|);
    }
  }

  /** A second insertion puts its list in front of the first one: nothing is recognised as already there. */
  lemma {:induction false} InsertTwice<L>(isFrom: L -> bool, lines: seq<L>, first: seq<L>, second: seq<L>)
    requires forall i :: 0 <= i < |first| ==> !isFrom(first[i])
    ensures AfterEachFrom(isFrom, AfterEachFrom(isFrom, lines, first), second)
         == AfterEachFrom(isFrom, lines, second + first)
  {
    if lines != [] {
      InsertTwice(isFrom, lines[1..], first, second);
      var block := if isFrom(lines[0]) then first else [];
      TwiceAtHead(isFrom, lines[0], block, AfterEachFrom(isFrom, lines[1..], first), second);
    }
  }

  lemma TwiceAtHead<L>(isFrom: L -> bool, line: L, block: seq<L>, rest: seq<L>, second: seq<L>)
    requires forall i :: 0 <= i < |block| ==> !isFrom(block[i])
    ensures AfterEachFrom(isFrom, [line] + block + rest, second)
         == [line] + (if isFrom(line) then second + block else block) + AfterEachFrom(isFrom, rest, second)
  {
    assert ([line] + block + rest)[1..] == block + rest;
    NoFromNoChange(isFrom, block, rest, second);
  }

  /** Unlike the rewrite per stage, this one is idempotent only where it does nothing. */
  lemma InsertIdempotentIffNothing<L>(isFrom: L -> bool, lines: seq<L>, args: seq<L>)
    requires forall i :: 0 <= i < |args| ==> !isFrom(args[i])
    ensures AfterEachFrom(isFrom, AfterEachFrom(isFrom, lines, args), args) == AfterEachFrom(isFrom, lines, args)
       <==> CountFrom(isFrom, lines) == 0 || args == []
  {
    var n, c := |args|, CountFrom(isFrom, lines);
    InsertTwice(isFrom, lines, args, args);
    if args == [] {
      assert args + args == args;
    } else if c == 0 {
      NoneIsFrom(isFrom, lines);
      NothingInserted(isFrom, lines, args);
      NothingInserted(isFrom, lines, args + args);
    } else {
      InsertedLength(isFrom, lines, args);
      InsertedLength(isFrom, lines, args + args);
      MoreLines(c, n);
    }
  }

  lemma NothingInserted<L>(isFrom: L -> bool, lines: seq<L>, args: seq<L>)
    requires forall i :: 0 <= i < |lines| ==> !isFrom(lines[i])
    ensures AfterEachFrom(isFrom, lines, args) == lines
  {
    NoFromNoChange(isFrom, lines, [], args);
    assert lines + [] == lines;
  }

  lemma MoreLines(froms: nat, args: nat)
    requires froms > 0 && args > 0
    ensures froms * (args + args) > froms * args
  {
  }

  lemma {:induction false} NoneIsFrom<L>(isFrom: L -> bool, lines: seq<L>)
    ensures CountFrom(isFrom, lines) == 0 <==> forall i :: 0 <= i < |lines| ==> !isFrom(lines[i])
  {
    if lines != [] {
      NoneIsFrom(isFrom, lines[1..]);
      assert forall i :: 0 < i < |lines| ==> lines[i] == lines[1..][i - 1];
    }
  }

  // ------------------------------------------------------------- the Dockerfile

  predicate FromLetter(c: char, upper: char, lower: char) {
    c == upper || c == lower
  }

  /** FROM in any case and white space, at the start of the trimmed line. */
  predicate IsFromLine(line: string) {
    var t := Trim(line);
    && |t| > 4
    && FromLetter(t[0], 'F', 'f') && FromLetter(t[1], 'R', 'r')
    && FromLetter(t[2], 'O', 'o') && FromLetter(t[3], 'M', 'm')
    && (t[4] in {' ', '\t', '\n', '\r'} || t[4] as int == 11 || t[4] as int == 12)
  }

  function Declarations(names: seq<string>): (r: seq<string>)
    ensures |r| == |names| && forall i :: 0 <= i < |r| ==> r[i] == "ARG " + names[i]
  {
    if names == [] then [] else ["ARG " + names[0]] + Declarations(names[1..])
  }

  /** The build-time variables, Coolify's own assignments, and, if there is any of these, the hash. */
  function ArgsToInsert(keys: seq<string>, assignments: seq<string>, hash: string): (args: seq<string>)
    ensures args == [] <==> keys + assignments == []
  {
    var args := Declarations(keys) + Declarations(assignments);
    if args == [] then [] else args + ["ARG COOLIFY_BUILD_SECRETS_HASH=" + hash]
  }

  lemma NoArgIsFrom(keys: seq<string>, assignments: seq<string>, hash: string)
    ensures var args := ArgsToInsert(keys, assignments, hash);
      forall i :: 0 <= i < |args| ==> !IsFromLine(args[i])
  {
    var args := ArgsToInsert(keys, assignments, hash);
    forall i | 0 <= i < |args| ensures !IsFromLine(args[i]) {
      assert args[i][0] == 'A';
      HeadStays(args[i]);
    }
  }

  lemma HeadStays(s: string)
    requires s != "" && s[0] == 'A'
    ensures Trim(s) != "" && Trim(s)[0] == 'A'
  {
  }

  /** The content after the run. A file without FROM is not written; without arguments it is only trimmed. */
  method AddBuildArgs(content: string, secretsSupported: bool, injectArgs: bool, keys: seq<string>,
                      assignments: seq<string>, hash: string) returns (written: Option<string>)
    ensures var lines := Explode(Trim(content)); var args := ArgsToInsert(keys, assignments, hash);
      written == if secretsSupported || !injectArgs || CountFrom(IsFromLine, lines) == 0 then None
                 else Some(Implode(AfterEachFrom(IsFromLine, lines, args)))
  {
    if secretsSupported || !injectArgs { return None; }
    var dockerfile := Explode(Trim(content));
    var froms := FindFromInstructionLines(IsFromLine, dockerfile);
    NoneIsFrom(IsFromLine, dockerfile);
    if froms == [] { return None; }
    assert IsFromLine(dockerfile[froms[0]]);
    var args := ArgsToInsert(keys, assignments, hash);
    dockerfile := InsertAfterFroms(IsFromLine, dockerfile, args);
    return Some(Implode(dockerfile));
  }

  /** Two runs on one file double its declarations. */
  lemma SecondRunDoubles(lines: seq<string>, keys: seq<string>, assignments: seq<string>, hash: string)
    ensures var args := ArgsToInsert(keys, assignments, hash);
      AfterEachFrom(IsFromLine, AfterEachFrom(IsFromLine, lines, args), args)
      == AfterEachFrom(IsFromLine, lines, args + args)
  {
    NoArgIsFrom(keys, assignments, hash);
    InsertTwice(IsFromLine, lines, ArgsToInsert(keys, assignments, hash), ArgsToInsert(keys, assignments, hash));
  }
}
