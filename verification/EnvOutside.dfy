/**
 Any `.env` file at all, however its sentinels lie: exactly when removing or
 merging the managed block leaves the lines outside it as they were.
 */
module EnvOutside {
  import opened EnvBlock

  // ── which lines are outside ────────────────────────────────────────────────

  ghost predicate OpenedAt(lines: seq<string>, b: int, i: int) {
    0 <= b < i <= |lines| && IsBegin(lines[b]) && forall j :: b < j < i ==> !IsEnd(lines[j])
  }

  /** A block was begun before line `i` and not ended since. */
  ghost predicate Open(lines: seq<string>, i: int) {
    exists b :: OpenedAt(lines, b, i)
  }

  ghost predicate EndsAfter(lines: seq<string>, i: int) {
    exists e :: i < e < |lines| && 0 <= e && IsEnd(lines[e])
  }

  ghost predicate PlainAfter(lines: seq<string>, i: int) {
    exists j :: i < j < |lines| && 0 <= j && IsPlain(lines[j])
  }

  /** The chosen ones of the first `n` lines, in order. */
  ghost function Pick(lines: seq<string>, chosen: int -> bool, n: nat): seq<string>
    requires n <= |lines|
  {
    if n == 0 then [] else Pick(lines, chosen, n - 1) + if chosen(n - 1) then [lines[n - 1]] else []
  }

  /** Plain lines, but for those between a begun block and the end that closes it. */
  ghost function Outside(lines: seq<string>): int -> bool {
    i => 0 <= i < |lines| && IsPlain(lines[i]) && !(Open(lines, i) && EndsAfter(lines, i))
  }

  ghost function OutsideOf(lines: seq<string>): seq<string> {
    Pick(lines, Outside(lines), |lines|)
  }

  /** Every begun block with a plain line after it has an end after it. */
  ghost predicate Closed(lines: seq<string>) {
    forall b :: 0 <= b < |lines| && IsBegin(lines[b]) && PlainAfter(lines, b) ==> EndsAfter(lines, b)
  }

  // ── what removal keeps ─────────────────────────────────────────────────────

  ghost function Unopened(lines: seq<string>): int -> bool {
    i => 0 <= i < |lines| && IsPlain(lines[i]) && !Open(lines, i)
  }

  lemma RemoveLine(r: Removal, line: string)
    ensures RemoveStep()(r, line).lines == r.lines + (if IsPlain(line) && !r.inBlock then [line] else [])
    ensures RemoveStep()(r, line).inBlock <==> IsBegin(line) || (!IsEnd(line) && r.inBlock)
  {
    assert r.lines + [] == r.lines;
  }

  lemma OpenNext(lines: seq<string>, n: nat)
    requires n < |lines|
    ensures Open(lines, n + 1) <==> IsBegin(lines[n]) || (!IsEnd(lines[n]) && Open(lines, n))
  {
    if IsBegin(lines[n]) { assert OpenedAt(lines, n, n + 1); }
    if !IsEnd(lines[n]) && Open(lines, n) {
      var b :| OpenedAt(lines, b, n);
      assert OpenedAt(lines, b, n + 1);
    }
    if Open(lines, n + 1) {
      var b :| OpenedAt(lines, b, n + 1);
      if b < n { assert OpenedAt(lines, b, n); }
    }
  }

  lemma RemoveSnoc(lines: seq<string>, line: string)
    ensures RemoveBlock(lines + [line]) == RemoveStep()(RemoveBlock(lines), line)
  {
    assert (lines + [line])[..|lines|] == lines;
  }

  lemma {:induction false} RemovalPicks(lines: seq<string>, n: nat)
    requires n <= |lines|
    ensures RemoveBlock(lines[..n]).lines == Pick(lines, Unopened(lines), n)
    ensures RemoveBlock(lines[..n]).inBlock <==> Open(lines, n)
  {
    if n > 0 {
      RemovalPicks(lines, n - 1);
      assert lines[..n] == lines[..n - 1] + [lines[n - 1]];
      RemoveSnoc(lines[..n - 1], lines[n - 1]);
      RemoveLine(RemoveBlock(lines[..n - 1]), lines[n - 1]);
      OpenNext(lines, n - 1);
    }
  }

  /** Of two choices, one within the other, the lists agree exactly when the choices do. */
  lemma {:induction false} PickSame(lines: seq<string>, p: int -> bool, q: int -> bool, n: nat)
    requires n <= |lines| && forall i :: 0 <= i < n && p(i) ==> q(i)
    ensures |Pick(lines, p, n)| <= |Pick(lines, q, n)|
    ensures Pick(lines, p, n) == Pick(lines, q, n) <==> forall i :: 0 <= i < n && q(i) ==> p(i)
  {
    if n > 0 {
      PickSame(lines, p, q, n - 1);
      var a, b := Pick(lines, p, n - 1), Pick(lines, q, n - 1);
      if p(n - 1) {
        CancelRight(a, b, [lines[n - 1]]);
      } else {
        assert a + [] == a && b + [] == b;
      }
    }
  }

  lemma CancelRight(a: seq<string>, b: seq<string>, c: seq<string>)
    ensures a + c == b + c <==> a == b
  {
    if a + c == b + c {
      assert |a| == |b|;
      assert a == (a + c)[..|a|] && b == (b + c)[..|b|];
    }
  }

  lemma OpenPlainEnds(lines: seq<string>, i: nat)
    requires Closed(lines) && i < |lines| && IsPlain(lines[i]) && Open(lines, i)
    ensures EndsAfter(lines, i)
  {
    var b :| OpenedAt(lines, b, i);
    assert PlainAfter(lines, b);
    var e :| b < e < |lines| && 0 <= e && IsEnd(lines[e]);
    assert e != i;
  }

  lemma KeptMeansClosed(lines: seq<string>)
    requires forall i :: 0 <= i < |lines| && Outside(lines)(i) ==> Unopened(lines)(i)
    ensures Closed(lines)
  {
    forall b | 0 <= b < |lines| && IsBegin(lines[b]) && PlainAfter(lines, b) ensures EndsAfter(lines, b) {
      var i :| b < i < |lines| && 0 <= i && IsPlain(lines[i]);
      if forall j :: b < j < i ==> !IsEnd(lines[j]) {
        assert OpenedAt(lines, b, i);
        assert !Unopened(lines)(i);
        var e :| i < e < |lines| && 0 <= e && IsEnd(lines[e]);
      }
    }
  }

  /**
   For every file: removing the block keeps exactly the lines outside it if and
   only if every begun block with a plain line after it has an end after it.
   */
  lemma RemovalKeepsIff(lines: seq<string>)
    ensures RemoveBlock(lines).lines == OutsideOf(lines) <==> Closed(lines)
  {
    RemovalPicks(lines, |lines|);
    assert lines[..|lines|] == lines;
    PickSame(lines, Unopened(lines), Outside(lines), |lines|);
    if Closed(lines) {
      forall i | 0 <= i < |lines| && Outside(lines)(i) ensures Unopened(lines)(i) {
        if Open(lines, i) { OpenPlainEnds(lines, i); }
      }
    }
    if forall i :: 0 <= i < |lines| && Outside(lines)(i) ==> Unopened(lines)(i) {
      KeptMeansClosed(lines);
    }
  }

  // ── what a merge keeps ─────────────────────────────────────────────────────

  /** Every begun block has an end after it. */
  ghost predicate Sealed(lines: seq<string>) {
    forall b :: 0 <= b < |lines| && IsBegin(lines[b]) ==> EndsAfter(lines, b)
  }

  lemma SealedConcat(a: seq<string>, b: seq<string>)
    requires Sealed(a) && Sealed(b)
    ensures Sealed(a + b)
  {
    var all := a + b;
    forall i | 0 <= i < |all| && IsBegin(all[i]) ensures EndsAfter(all, i) {
      if i < |a| {
        var e :| i < e < |a| && 0 <= e && IsEnd(a[e]);
        assert all[e] == a[e];
      } else {
        var e :| i - |a| < e < |b| && 0 <= e && IsEnd(b[e]);
        assert all[|a| + e] == b[e];
      }
    }
  }

  lemma SealedBlock(bs: seq<Binding>)
    requires AllPlain(Assignments(bs))
    ensures Sealed(Block(bs))
  {
    SentinelsRead();
    SentinelsDiffer(END);
    var block, last := Block(bs), |Assignments(bs)| + 1;
    assert block[last] == END;
    forall i | 0 <= i < |block| && IsBegin(block[i]) ensures EndsAfter(block, i) {
      assert i != last;
    }
  }

  /** Removal reads on where it stopped. */
  lemma RemoveOn(lines: seq<string>, more: seq<string>)
    ensures RemoveBlock(lines + more) == Fold(RemoveStep(), RemoveBlock(lines), more)
  {
    FoldConcat(RemoveStep(), Removal([], false, []), lines, more);
  }

  lemma RemovePlainOn(lines: seq<string>, more: seq<string>)
    requires AllPlain(more) && !RemoveBlock(lines).inBlock
    ensures RemoveBlock(lines + more).lines == RemoveBlock(lines).lines + more && !RemoveBlock(lines + more).inBlock
  {
    RemoveOn(lines, more);
    RemovePlain(RemoveBlock(lines), more);
  }

  /** A whole block further on takes nothing away from what removal keeps. */
  lemma RemoveBlockOn(lines: seq<string>, bs: seq<Binding>)
    requires AllPlain(Assignments(bs)) && !RemoveBlock(lines).inBlock
    ensures RemoveBlock(lines + Block(bs)).lines == RemoveBlock(lines).lines && !RemoveBlock(lines + Block(bs)).inBlock
  {
    var mid, step, r0 := Assignments(bs), RemoveStep(), RemoveBlock(lines);
    SentinelsRead();
    SentinelsDiffer(END);
    RemoveOn(lines, Block(bs));
    assert Block(bs) == [BEGIN] + (mid + [END]);
    FoldOne(step, r0, BEGIN, mid + [END]);
    RemoveLine(r0, BEGIN);
    var r1 := step(r0, BEGIN);
    FoldConcat(step, r1, mid, [END]);
    RemovePlain(r1, mid);
    var r2 := Fold(step, r1, mid);
    assert [END] == [END] + [];
    FoldOne(step, r2, END, []);
    RemoveLine(r2, END);
  }

  lemma RewriteLine(block: seq<string>, r: Rewrite, line: string)
    ensures var r' := RewriteStep(block)(r, line);
      && (r'.inBlock <==> IsBegin(line) || (!IsEnd(line) && r.inBlock))
      && (r'.replaced <==> r.replaced || IsEnd(line))
      && r'.lines == r.lines + (if IsEnd(line) then block else if IsPlain(line) && !r.inBlock then [line] else [])
  {
    if IsEnd(line) { SentinelsDiffer(line); }
    assert r.lines + [] == r.lines;
  }

  function Rewritten(lines: seq<string>, block: seq<string>): Rewrite {
    Fold(RewriteStep(block), Rewrite([], false, false), lines)
  }

  /** What the rewriting pass has written so far: whole blocks among exactly the lines removal keeps. */
  ghost predicate Tracks(r: Rewrite, q: Removal, ended: bool) {
    && r.inBlock == q.inBlock && r.replaced == ended
    && Sealed(r.lines)
    && RemoveBlock(r.lines).lines == q.lines && !RemoveBlock(r.lines).inBlock
    && (!r.replaced ==> r.lines == q.lines)
  }

  lemma TracksLine(r: Rewrite, q: Removal, ended: bool, bs: seq<Binding>, line: string)
    requires Tracks(r, q, ended) && AllPlain(Assignments(bs))
    ensures Tracks(RewriteStep(Block(bs))(r, line), RemoveStep()(q, line), ended || IsEnd(line))
  {
    RewriteLine(Block(bs), r, line);
    RemoveLine(q, line);
    if IsEnd(line) {
      SentinelsDiffer(line);
      RemoveBlockOn(r.lines, bs);
      SealedBlock(bs);
      SealedConcat(r.lines, Block(bs));
      assert q.lines + [] == q.lines;
    } else if IsPlain(line) && !r.inBlock {
      RemovePlainOn(r.lines, [line]);
      SealedConcat(r.lines, [line]);
    } else {
      assert r.lines + [] == r.lines && q.lines + [] == q.lines;
    }
  }

  ghost predicate AnyEnd(lines: seq<string>) {
    exists i :: 0 <= i < |lines| && IsEnd(lines[i])
  }

  lemma AnyEndSnoc(lines: seq<string>)
    requires lines != []
    ensures AnyEnd(lines) <==> AnyEnd(lines[..|lines| - 1]) || IsEnd(lines[|lines| - 1])
  {
    var front := lines[..|lines| - 1];
    if AnyEnd(front) {
      var i :| 0 <= i < |front| && IsEnd(front[i]);
      assert IsEnd(lines[i]);
    }
    if i :| 0 <= i < |lines| && IsEnd(lines[i]) {
      if i < |front| { assert IsEnd(front[i]); }
    }
  }

  lemma {:induction false} MergeTracks(lines: seq<string>, bs: seq<Binding>)
    requires AllPlain(Assignments(bs))
    ensures Tracks(Rewritten(lines, Block(bs)), RemoveBlock(lines), AnyEnd(lines))
  {
    if lines != [] {
      var front, last := lines[..|lines| - 1], lines[|lines| - 1];
      MergeTracks(front, bs);
      TracksLine(Rewritten(front, Block(bs)), RemoveBlock(front), AnyEnd(front), bs, last);
      AnyEndSnoc(lines);
    }
  }

  /** The blank line a merge puts before a block it has to append. */
  ghost function Separator(lines: seq<string>): seq<string> {
    var kept := RemoveBlock(lines).lines;
    if !AnyEnd(lines) && kept != [] && Strip(kept[|kept| - 1]) != "" then [""] else []
  }

  lemma AppendedRemoves(lines: seq<string>, bs: seq<Binding>)
    requires AllPlain(Assignments(bs)) && !AnyEnd(lines)
    ensures var r := Rewritten(lines, Block(bs));
      var merged := Appended(r.lines, Block(bs));
      && RemoveBlock(merged).lines == RemoveBlock(lines).lines + Separator(lines)
      && Sealed(merged)
  {
    MergeTracks(lines, bs);
    SentinelsRead();
    var kept, sep := Rewritten(lines, Block(bs)).lines, Separator(lines);
    RemovePlainOn(kept, sep);
    SealedConcat(kept, sep);
    RemoveBlockOn(kept + sep, bs);
    SealedBlock(bs);
    SealedConcat(kept + sep, Block(bs));
    assert Appended(kept, Block(bs)) == (kept + sep) + Block(bs);
  }

  lemma MergedRemoves(lines: seq<string>, env: seq<Binding>)
    requires Tidy(env)
    ensures RemoveBlock(MergedLines(lines, env)).lines == RemoveBlock(lines).lines + Separator(lines)
    ensures Sealed(MergedLines(lines, env))
  {
    var bs := ToWrite(env, ParseKeys(lines, true));
    ToWriteTidy(env, ParseKeys(lines, true));
    AssignmentsPlain(bs);
    MergeTracks(lines, bs);
    if AnyEnd(lines) {
      assert RemoveBlock(lines).lines + [] == RemoveBlock(lines).lines;
    } else {
      AppendedRemoves(lines, bs);
    }
  }

  /** For every file: outside its blocks a merged file has what removal would have kept, and the separator. */
  lemma MergeLeaves(lines: seq<string>, env: seq<Binding>)
    requires Tidy(env)
    ensures OutsideOf(MergedLines(lines, env)) == RemoveBlock(lines).lines + Separator(lines)
  {
    MergedRemoves(lines, env);
    RemovalKeepsIff(MergedLines(lines, env));
  }

  /**
   For every file: a merge keeps the lines outside the block, up to the separator
   it adds, if and only if every begun block with a plain line after it has an end
   after it.
   */
  lemma MergeKeepsIff(lines: seq<string>, env: seq<Binding>)
    requires Tidy(env)
    ensures OutsideOf(MergedLines(lines, env)) == OutsideOf(lines) + Separator(lines) <==> Closed(lines)
  {
    MergeLeaves(lines, env);
    RemovalKeepsIff(lines);
    CancelRight(RemoveBlock(lines).lines, OutsideOf(lines), Separator(lines));
  }

  lemma UnclosedNotClosed(pre: seq<string>, first: string, rest: seq<string>)
    requires IsBegin(first) && AllPlain(rest) && rest != []
    ensures !Closed(pre + ([first] + rest))
  {
    var lines, b := pre + ([first] + rest), |pre|;
    assert lines[b] == first && lines[b + 1] == rest[0];
    assert PlainAfter(lines, b);
    assert forall e :: b < e < |lines| ==> lines[e] == rest[e - b - 1];
  }

  /** A file whose second setting is lost: the block above it was never ended. */
  lemma UnclosedFile(env: seq<Binding>)
    requires Tidy(env)
    ensures var file := ["A=1"] + ([BEGIN] + ["B=2"]);
      && !Closed(file)
      && RemoveBlock(file).lines == ["A=1"]
      && OutsideOf(MergedLines(file, env)) == ["A=1"] + Separator(file)
  {
    SettingIsPlain(Binding("A", "1"), "A=1");
    SettingIsPlain(Binding("B", "2"), "B=2");
    SentinelsRead();
    UnclosedNotClosed(["A=1"], BEGIN, ["B=2"]);
    UnclosedBlockSwallowsRest(["A=1"], BEGIN, ["B=2"], env);
    MergeLeaves(["A=1"] + ([BEGIN] + ["B=2"]), env);
  }

  lemma SettingIsPlain(b: Binding, line: string)
    requires Writable(b) && line == Assignment(b)
    ensures AllPlain([line])
  {
    AssignmentReads(b);
  }
}
