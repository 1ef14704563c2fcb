/** ARG insertion per build stage, over any lines that can be told apart as FROM, ARG or other: each
    stage gets, right after its FROM line, the declarations that its leading ARG block does not have. */
module StageArgs {
  import opened DockerfileText
  import opened Wrappers

  /** An ARG line declares a key, or none when it has no argument. */
  datatype Kind<+K> = From | Arg(key: Option<K>) | Other

  /** How lines are read, and the line that declares a key. */
  datatype Syntax<!L, !K(==)> = Syntax(kind: L -> Kind<K>, declare: K -> L)

  /** A declared key is read back from its line. */
  ghost predicate Sound<L(!new), K(!new)>(syn: Syntax<L, K>, keys: seq<K>) {
    forall i :: 0 <= i < |keys| ==> syn.kind(syn.declare(keys[i])) == Arg(Some(keys[i]))
  }

  predicate IsFrom<L, K(==)>(syn: Syntax<L, K>, line: L) {
    syn.kind(line).From?
  }

  /** The keys declared by the ARG lines at the start of `lines`. */
  function Existing<L, K(==)>(syn: Syntax<L, K>, lines: seq<L>): seq<K> {
    if lines == [] then []
    else match syn.kind(lines[0])
      case Arg(None) => Existing(syn, lines[1..])
      case Arg(Some(key)) => [key] + Existing(syn, lines[1..])
      case _ => []
  }

  function Missing<L, K(==)>(syn: Syntax<L, K>, keys: seq<K>, existing: seq<K>): (r: seq<L>)
    ensures |r| <= |keys|
  {
    if keys == [] then []
    else
      var rest := Missing(syn, keys[1..], existing);
      if keys[0] in existing then rest else [syn.declare(keys[0])] + rest
  }

  /** The rewritten file: after each FROM line the missing declarations, all other lines as they were. */
  function Rewrite<L, K(==)>(syn: Syntax<L, K>, lines: seq<L>, keys: seq<K>): (r: seq<L>)
    ensures |r| >= |lines|
    ensures lines != [] ==> r != [] && r[0] == lines[0]
  {
    if lines == [] then []
    else if IsFrom(syn, lines[0])
    then [lines[0]] + Missing(syn, keys, Existing(syn, lines[1..])) + Rewrite(syn, lines[1..], keys)
    else [lines[0]] + Rewrite(syn, lines[1..], keys)
  }

  predicate NoFrom<L, K(==)>(syn: Syntax<L, K>, lines: seq<L>) {
    forall i :: 0 <= i < |lines| ==> !IsFrom(syn, lines[i])
  }

  // ------------------------------------------------------------- the rewrite and its own output

  lemma {:induction false} MissingDeclares<L(!new), K(!new)>(syn: Syntax<L, K>, keys: seq<K>, existing: seq<K>,
                                                             rest: seq<L>)
    requires Sound(syn, keys)
    ensures NoFrom(syn, Missing(syn, keys, existing))
    ensures forall key :: key in keys && key !in existing ==> key in Existing(syn, Missing(syn, keys, existing) + rest)
    ensures forall key :: key in Existing(syn, rest) ==> key in Existing(syn, Missing(syn, keys, existing) + rest)
  {
    var m := Missing(syn, keys, existing);
    if keys == [] {
      assert m + rest == rest;
    } else {
      MissingDeclares(syn, keys[1..], existing, rest);
      if keys[0] !in existing {
        assert (m + rest)[1..] == Missing(syn, keys[1..], existing) + rest;
      }
    }
  }

  /** The rewrite does not change the leading ARG block of what follows a FROM line. */
  lemma {:induction false} RewriteKeepsExisting<L(!new), K(!new)>(syn: Syntax<L, K>, lines: seq<L>, keys: seq<K>)
    ensures Existing(syn, Rewrite(syn, lines, keys)) == Existing(syn, lines)
  {
    if lines != [] && syn.kind(lines[0]).Arg? {
      assert Rewrite(syn, lines, keys)[1..] == Rewrite(syn, lines[1..], keys);
      RewriteKeepsExisting(syn, lines[1..], keys);
    }
  }

  lemma {:induction false} RewriteSkips<L(!new), K(!new)>(syn: Syntax<L, K>, args: seq<L>, rest: seq<L>, keys: seq<K>)
    requires NoFrom(syn, args)
    ensures Rewrite(syn, args + rest, keys) == args + Rewrite(syn, rest, keys)
  {
    if args == [] {
      assert args + rest == rest;
    } else {
      assert (args + rest)[1..] == args[1..] + rest;
      RewriteSkips(syn, args[1..], rest, keys);
    }
  }

  lemma {:induction false} NothingMissing<L(!new), K(!new)>(syn: Syntax<L, K>, keys: seq<K>, existing: seq<K>)
    requires forall key :: key in keys ==> key in existing
    ensures Missing(syn, keys, existing) == []
  {
    if keys != [] {
      NothingMissing(syn, keys[1..], existing);
    }
  }

  lemma AtIndex<L>(head: L, m: seq<L>, rest: seq<L>, i: nat)
    requires i < 1 + |m| + |rest|
    ensures var out := [head] + m + rest;
      if i == 0 then out[i + 1..] == m + rest
      else if i <= |m| then out[i] == m[i - 1]
      else out[i] == rest[i - 1 - |m|] && out[i + 1..] == rest[i - |m|..]
  {
  }

  /** Each stage of the rewritten file declares every key in the ARG block after its FROM line. */
  lemma {:induction false} EveryStageDeclaresEveryKey<L(!new), K(!new)>(syn: Syntax<L, K>, lines: seq<L>,
                                                                        keys: seq<K>, i: nat)
    requires Sound(syn, keys) && i < |Rewrite(syn, lines, keys)| && IsFrom(syn, Rewrite(syn, lines, keys)[i])
    ensures forall key :: key in keys ==> key in Existing(syn, Rewrite(syn, lines, keys)[i + 1..])
  {
    var out, rest := Rewrite(syn, lines, keys), Rewrite(syn, lines[1..], keys);
    if IsFrom(syn, lines[0]) {
      var m := Missing(syn, keys, Existing(syn, lines[1..]));
      MissingDeclares(syn, keys, Existing(syn, lines[1..]), rest);
      RewriteKeepsExisting(syn, lines[1..], keys);
      AtIndex(lines[0], m, rest, i);
      if i > 0 {
        EveryStageDeclaresEveryKey(syn, lines[1..], keys, i - 1 - |m|);
      }
    } else {
      assert out[i + 1..] == rest[i..];
      EveryStageDeclaresEveryKey(syn, lines[1..], keys, i - 1);
    }
  }

  lemma SecondRunOnStage<L(!new), K(!new)>(syn: Syntax<L, K>, line: L, existing: seq<K>, rest: seq<L>, keys: seq<K>)
    requires Sound(syn, keys) && IsFrom(syn, line) && Existing(syn, rest) == existing
    requires Rewrite(syn, rest, keys) == rest
    ensures var out := [line] + Missing(syn, keys, existing) + rest; Rewrite(syn, out, keys) == out
  {
    hide Existing, Missing, Sound, Rewrite;
    var m := Missing(syn, keys, existing);
    var tail := m + rest;
    MissingDeclares(syn, keys, existing, rest);
    NothingMissing(syn, keys, Existing(syn, tail));
    RewriteSkips(syn, m, rest, keys);
    RewriteFrom(syn, line, tail, keys);
    assert [line] + m + rest == [line] + tail;
    assert [line] + [] + tail == [line] + tail;
  }

  lemma RewriteFrom<L(!new), K(!new)>(syn: Syntax<L, K>, line: L, tail: seq<L>, keys: seq<K>)
    requires IsFrom(syn, line)
    ensures Rewrite(syn, [line] + tail, keys) ==
      [line] + Missing(syn, keys, Existing(syn, tail)) + Rewrite(syn, tail, keys)
  {
    hide Missing, Existing;
    assert ([line] + tail)[1..] == tail;
  }

  /** A second run adds nothing, for any number of stages and any ARG block that was there before. */
  lemma {:induction false} RewriteIdempotent<L(!new), K(!new)>(syn: Syntax<L, K>, lines: seq<L>, keys: seq<K>)
    requires Sound(syn, keys)
    ensures Rewrite(syn, Rewrite(syn, lines, keys), keys) == Rewrite(syn, lines, keys)
  {
    if lines != [] {
      var rest := Rewrite(syn, lines[1..], keys);
      RewriteIdempotent(syn, lines[1..], keys);
      if IsFrom(syn, lines[0]) {
        RewriteKeepsExisting(syn, lines[1..], keys);
        SecondRunOnStage(syn, lines[0], Existing(syn, lines[1..]), rest, keys);
      } else {
        assert ([lines[0]] + rest)[1..] == rest;
      }
    }
  }

  /** `out` is `lines` with declarations of `keys` inserted, the original lines in their order. */
  ghost predicate OnlyInserts<L(!new), K(!new)>(syn: Syntax<L, K>, lines: seq<L>, out: seq<L>, keys: seq<K>) {
    if out == [] then lines == []
    else
      || (lines != [] && lines[0] == out[0] && OnlyInserts(syn, lines[1..], out[1..], keys))
      || ((exists i :: 0 <= i < |keys| && out[0] == syn.declare(keys[i])) && OnlyInserts(syn, lines, out[1..], keys))
  }

  lemma {:induction false} InsertMissing<L(!new), K(!new)>(syn: Syntax<L, K>, keys: seq<K>, some: seq<K>,
                                                           existing: seq<K>,
                                                           lines: seq<L>, out: seq<L>)
    requires OnlyInserts(syn, lines, out, keys) && forall k :: k in some ==> k in keys
    ensures OnlyInserts(syn, lines, Missing(syn, some, existing) + out, keys)
  {
    var m := Missing(syn, some, existing);
    if some == [] {
      assert m + out == out;
    } else {
      InsertMissing(syn, keys, some[1..], existing, lines, out);
      if some[0] !in existing {
        assert (m + out)[1..] == Missing(syn, some[1..], existing) + out;
        assert some[0] in keys;
      }
    }
  }

  /** The rewrite loses, changes and reorders nothing. */
  lemma {:induction false} RewriteOnlyInserts<L(!new), K(!new)>(syn: Syntax<L, K>, lines: seq<L>, keys: seq<K>)
    ensures OnlyInserts(syn, lines, Rewrite(syn, lines, keys), keys)
  {
    if lines != [] {
      var rest := Rewrite(syn, lines[1..], keys);
      RewriteOnlyInserts(syn, lines[1..], keys);
      if IsFrom(syn, lines[0]) {
        InsertMissing(syn, keys, keys, Existing(syn, lines[1..]), lines[1..], rest);
        assert Rewrite(syn, lines, keys)[1..] == Missing(syn, keys, Existing(syn, lines[1..])) + rest;
      } else {
        assert Rewrite(syn, lines, keys)[1..] == rest;
      }
    }
  }

  /** Where nothing was added, nothing was changed. */
  lemma {:induction false} NothingAdded<L(!new), K(!new)>(syn: Syntax<L, K>, lines: seq<L>, keys: seq<K>)
    requires |Rewrite(syn, lines, keys)| == |lines|
    ensures Rewrite(syn, lines, keys) == lines
  {
    hide Missing, Existing;
    if lines != [] {
      NothingAdded(syn, lines[1..], keys);
    }
  }

  // ------------------------------------------------------------- the loops of the deployment job

  /** Inserts items before position `at`. */
  function Splice<L>(s: seq<L>, at: nat, items: seq<L>): (r: seq<L>)
    requires at <= |s|
    ensures |r| == |s| + |items|
    ensures items == [] ==> r == s
  {
    s[..at] + items + s[at..]
  }

  lemma {:induction false} ExistingStopsAtFrom<L(!new), K(!new)>(syn: Syntax<L, K>, a: seq<L>, b: seq<L>)
    requires b == [] || IsFrom(syn, b[0])
    ensures Existing(syn, a + b) == Existing(syn, a)
  {
    if a == [] {
      assert a + b == b;
    } else {
      assert (a + b)[1..] == a[1..] + b;
      ExistingStopsAtFrom(syn, a[1..], b);
    }
  }

  /** The rewrite of a file that is cut just before a FROM line is the rewrite of both parts. */
  lemma {:induction false} RewriteConcat<L(!new), K(!new)>(syn: Syntax<L, K>, a: seq<L>, b: seq<L>, keys: seq<K>)
    requires b == [] || IsFrom(syn, b[0])
    ensures Rewrite(syn, a + b, keys) == Rewrite(syn, a, keys) + Rewrite(syn, b, keys)
  {
    if a == [] {
      assert a + b == b;
    } else {
      assert (a + b)[1..] == a[1..] + b;
      RewriteConcat(syn, a[1..], b, keys);
      ExistingStopsAtFrom(syn, a[1..], b);
    }
  }

  /** One stage: its FROM line, the missing declarations, and the rest of the stage. */
  lemma RewriteStage<L(!new), K(!new)>(syn: Syntax<L, K>, stage: seq<L>, keys: seq<K>)
    requires stage != [] && IsFrom(syn, stage[0]) && NoFrom(syn, stage[1..])
    ensures Rewrite(syn, stage, keys) ==
              [stage[0]] + Missing(syn, keys, Existing(syn, stage[1..])) + stage[1..]
  {
    RewriteSkips(syn, stage[1..], [], keys);
    assert stage[1..] + [] == stage[1..];
  }

  /** The indices of the FROM lines, in order, complete. */
  predicate FromIndices<L, K(==)>(syn: Syntax<L, K>, lines: seq<L>, from: seq<nat>) {
    && (forall j :: 0 <= j < |from| ==> from[j] < |lines| && IsFrom(syn, lines[from[j]]))
    && (forall j, k :: 0 <= j < k < |from| ==> from[j] < from[k])
    && (forall i :: 0 <= i < |lines| && IsFrom(syn, lines[i]) ==> i in from)
  }

  method FindFromLines<L, K(==)>(syn: Syntax<L, K>, lines: seq<L>) returns (from: seq<nat>)
    ensures FromIndices(syn, lines, from)
  {
    from := [];
    for index := 0 to |lines|
      invariant forall j :: 0 <= j < |from| ==> from[j] < index && IsFrom(syn, lines[from[j]])
      invariant forall j, k :: 0 <= j < k < |from| ==> from[j] < from[k]
      invariant forall i :: 0 <= i < index && IsFrom(syn, lines[i]) ==> i in from
    {
      if IsFrom(syn, lines[index]) {
        from := from + [index];
      }
    }
  }

  /** The keys of the ARG block at the start of a stage, which ends before `stageEnd`. */
  method StageBlock<L, K(==)>(syn: Syntax<L, K>, lines: seq<L>, stageStart: nat,
                              stageEnd: nat) returns (existing: seq<K>)
    requires stageStart <= stageEnd <= |lines|
    ensures existing == Existing(syn, lines[stageStart..stageEnd])
  {
    existing := [];
    var i := stageStart;
    while i < stageEnd
      invariant stageStart <= i <= stageEnd
      invariant existing + Existing(syn, lines[i..stageEnd]) == Existing(syn, lines[stageStart..stageEnd])
    {
      assert lines[i..stageEnd][1..] == lines[i + 1..stageEnd];
      match syn.kind(lines[i]) {
        case Arg(None) =>
        case Arg(Some(key)) => existing := existing + [key];
        case _ => break;
      }
      i := i + 1;
    }
  }

  function StageBound<L, K(==)>(syn: Syntax<L, K>, lines: seq<L>, from: seq<nat>, j: nat): (r: nat)
    requires FromIndices(syn, lines, from) && j <= |from|
    ensures r <= |lines|
  {
    if j < |from| then from[j] else |lines|
  }

  lemma StageIsOneFrom<L(!new), K(!new)>(syn: Syntax<L, K>, lines: seq<L>, from: seq<nat>, j: nat)
    requires FromIndices(syn, lines, from) && j < |from|
    ensures StageBound(syn, lines, from, j) < StageBound(syn, lines, from, j + 1)
    ensures NoFrom(syn, lines[from[j] + 1..StageBound(syn, lines, from, j + 1)])
  {
    var stage := lines[from[j] + 1..StageBound(syn, lines, from, j + 1)];
    forall i | 0 <= i < |stage| ensures !IsFrom(syn, stage[i]) {
      var at := from[j] + 1 + i;
      assert stage[i] == lines[at];
      forall k | 0 <= k < |from| ensures from[k] != at {
        if k > j { assert from[j + 1] <= from[k]; } else { assert from[k] <= from[j]; }
      }
    }
  }

  lemma RewriteNextStage<L(!new), K(!new)>(syn: Syntax<L, K>, lines: seq<L>, from: seq<nat>, j: nat, keys: seq<K>)
    requires FromIndices(syn, lines, from) && j < |from|
    ensures var bound, next := from[j], StageBound(syn, lines, from, j + 1);
      && bound < next <= |lines|
      && Rewrite(syn, lines[..next], keys) ==
           Rewrite(syn, lines[..bound], keys)
             + ([lines[bound]] + Missing(syn, keys, Existing(syn, lines[bound + 1..next])) + lines[bound + 1..next])
  {
    StageIsOneFrom(syn, lines, from, j);
    var bound, next := from[j], StageBound(syn, lines, from, j + 1);
    var stage := lines[bound..next];
    assert stage[0] == lines[bound] && stage[1..] == lines[bound + 1..next];
    RewriteStage(syn, stage, keys);
    RewriteConcat(syn, lines[..bound], stage, keys);
    assert lines[..bound] + stage == lines[..next];
  }

  /** The lines that the loop holds when it has rewritten the file up to stage `j`. */
  ghost function Held<L, K>(syn: Syntax<L, K>, lines: seq<L>, from: seq<nat>, j: nat, keys: seq<K>): seq<L>
    requires FromIndices(syn, lines, from) && j <= |from|
  {
    var bound := StageBound(syn, lines, from, j);
    Rewrite(syn, lines[..bound], keys) + lines[bound..]
  }

  /** One turn of the insertion loop: at the FROM line shifted by the lines inserted so far, the stage is
      still as it was, and splicing the missing declarations behind it rewrites the file one stage further. */
  lemma InsertStep<L(!new), K(!new)>(syn: Syntax<L, K>, lines: seq<L>, from: seq<nat>, j: nat, keys: seq<K>)
    requires FromIndices(syn, lines, from) && j < |from|
    ensures var out := Held(syn, lines, from, j, keys); var next := StageBound(syn, lines, from, j + 1);
      var offset := |out| - |lines|; var at := from[j] + offset;
      && offset >= 0 && at < next + offset <= |out|
      && out[at + 1..next + offset] == lines[from[j] + 1..next]
      && var missing := Missing(syn, keys, Existing(syn, lines[from[j] + 1..next]));
         Splice(out, at + 1, missing) == Held(syn, lines, from, j + 1, keys)
  {
    hide Rewrite, Missing, Existing, FromIndices;
    RewriteNextStage(syn, lines, from, j, keys);
    var bound, next := from[j], StageBound(syn, lines, from, j + 1);
    var missing := Missing(syn, keys, Existing(syn, lines[bound + 1..next]));
    var done := Rewrite(syn, lines[..bound], keys);
    SpliceAfterHead(done, lines[bound..], missing, next - bound);
    assert lines[bound..][1..next - bound] == lines[bound + 1..next];
    assert lines[bound..][next - bound..] == lines[next..];
  }

  lemma SpliceAfterHead<L>(done: seq<L>, tail: seq<L>, missing: seq<L>, cut: nat)
    requires 1 <= cut <= |tail|
    ensures var out, at := done + tail, |done|;
      && out[at + 1..at + cut] == tail[1..cut]
      && out[..at + 1] + missing + out[at + 1..] == done + ([tail[0]] + missing + tail[1..cut]) + tail[cut..]
  {
  }

  /** At the start the loop holds the original file, at the end the rewritten one. */
  lemma HeldEnds<L(!new), K(!new)>(syn: Syntax<L, K>, lines: seq<L>, from: seq<nat>, keys: seq<K>)
    requires FromIndices(syn, lines, from)
    ensures Held(syn, lines, from, 0, keys) == lines
    ensures Held(syn, lines, from, |from|, keys) == Rewrite(syn, lines, keys)
  {
    var bound := StageBound(syn, lines, from, 0);
    RewriteSkips(syn, lines[..bound], [], keys);
    assert lines[..bound] + [] == lines[..bound];
    assert lines[..|lines|] == lines;
  }

  /** One turn of the insertion loop, at the original index of a FROM line plus the running offset. */
  method InsertStage<L(!new), K(==,!new)>(syn: Syntax<L, K>, ghost lines: seq<L>, from: seq<nat>, stageIndex: nat,
                                          keys: seq<K>, held: seq<L>, offset: nat) returns (out: seq<L>)
    requires FromIndices(syn, lines, from) && stageIndex < |from|
    requires held == Held(syn, lines, from, stageIndex, keys) && offset == |held| - |lines|
    ensures out == Held(syn, lines, from, stageIndex + 1, keys) && |out| >= |held|
  {
    InsertStep(syn, lines, from, stageIndex, keys);
    hide Rewrite, Missing, Existing, FromIndices, Held, Splice;
    var adjustedIndex := from[stageIndex] + offset;
    var stageEnd := if stageIndex + 1 < |from| then from[stageIndex + 1] + offset else |held|;
    var existing := StageBlock(syn, held, adjustedIndex + 1, stageEnd);
    var stageArgsToAdd := Missing(syn, keys, existing);
    out := Splice(held, adjustedIndex + 1, stageArgsToAdd);
  }

  /** The insertion loop: it walks the original FROM indices and keeps a running offset for the lines it
      has inserted so far. */
  method InsertArgs<L(!new), K(==,!new)>(syn: Syntax<L, K>, lines: seq<L>, keys: seq<K>) returns (out: seq<L>,
                                         totalAdded: nat)
    ensures out == Rewrite(syn, lines, keys)
    ensures totalAdded == |out| - |lines|
  {
    var from := FindFromLines(syn, lines);
    out := lines;
    var offset := 0;
    HeldEnds(syn, lines, from, keys);
    hide Rewrite, Missing, Existing, FromIndices, Held, Splice;
    var stageIndex := 0;
    while stageIndex < |from|
      invariant stageIndex <= |from|
      invariant out == Held(syn, lines, from, stageIndex, keys)
      invariant offset == |out| - |lines|
    {
      var added := |out|;
      out := InsertStage(syn, lines, from, stageIndex, keys, out, offset);
      added := |out| - added;
      offset := offset + added;
      stageIndex := stageIndex + 1;
    }
    totalAdded := offset;
  }
}
