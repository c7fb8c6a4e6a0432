/**
 The managed block an installer keeps in a `.env` file between two sentinel
 lines. A file is the sequence of its lines.
 */
module EnvBlock {
  import opened Prelude

  const BEGIN: string := "# BEGIN agent-wake-harness-managed"
  const END: string := "# END agent-wake-harness-managed"

  /** Characters `str.strip` removes. */
  predicate IsSpace(c: char) {
    var n := c as int;
    || 9 <= n <= 13 || 28 <= n <= 32 || n == 0x85 || n == 0xA0 || n == 0x1680 || 0x2000 <= n <= 0x200A
    || n == 0x2028 || n == 0x2029 || n == 0x202F || n == 0x205F || n == 0x3000
  }

  function StripLeft(s: string): string {
    if s != "" && IsSpace(s[0]) then StripLeft(s[1..]) else s
  }

  function StripRight(s: string): string {
    if s != "" && IsSpace(s[|s| - 1]) then StripRight(s[..|s| - 1]) else s
  }

  function Strip(s: string): string {
    StripRight(StripLeft(s))
  }

  predicate IsBegin(line: string) { Strip(line) == BEGIN }
  predicate IsEnd(line: string) { Strip(line) == END }
  predicate IsPlain(line: string) { !IsBegin(line) && !IsEnd(line) }

  /** Position of the first '=', or the length if there is none. */
  function EqualsAt(s: string): (i: nat)
    ensures i <= |s| && (i < |s| ==> s[i] == '=') && forall j :: 0 <= j < i ==> s[j] != '='
  {
    if s == "" then 0 else if s[0] == '=' then 0 else 1 + EqualsAt(s[1..])
  }

  datatype Binding = Binding(key: string, value: string)

  /** The assignment a line makes, if it is not blank, a comment, or without '='. */
  function BindingOf(line: string): Option<Binding> {
    var s := Strip(line);
    if s == "" || s[0] == '#' || EqualsAt(s) == |s| then None
    else Some(Binding(Strip(s[..EqualsAt(s)]), Strip(s[EqualsAt(s) + 1..])))
  }

  // ── the three flag-driven passes ───────────────────────────────────────────

  function Fold<S>(step: (S, string) -> S, start: S, lines: seq<string>): S {
    if lines == [] then start else step(Fold(step, start, lines[..|lines| - 1]), lines[|lines| - 1])
  }

  datatype Parsed = Parsed(inBlock: bool, keys: map<string, string>)

  /** What one line binds. */
  function LineKeys(line: string): map<string, string> {
    match BindingOf(line)
    case Some(b) => map[b.key := b.value]
    case None => map[]
  }

  function ParseStep(excludeBlock: bool): (Parsed, string) -> Parsed {
    (p: Parsed, line: string) =>
      if IsBegin(line) then p.(inBlock := true)
      else if IsEnd(line) then p.(inBlock := false)
      else if excludeBlock && p.inBlock then p
      else p.(keys := p.keys + LineKeys(line))
  }

  function ParseKeys(lines: seq<string>, excludeBlock: bool): map<string, string> {
    Fold(ParseStep(excludeBlock), Parsed(false, map[]), lines).keys
  }

  datatype Rewrite = Rewrite(lines: seq<string>, inBlock: bool, replaced: bool)

  function RewriteStep(managed: seq<string>): (Rewrite, string) -> Rewrite {
    (r: Rewrite, line: string) =>
      if IsBegin(line) then r.(inBlock := true)
      else if IsEnd(line) then Rewrite(r.lines + managed, false, true)
      else if r.inBlock then r
      else r.(lines := r.lines + [line])
  }

  datatype Removal = Removal(lines: seq<string>, inBlock: bool, removed: seq<string>)

  /** The name a line assigns, as a list. */
  function NameOf(line: string): seq<string> {
    match BindingOf(line)
    case Some(b) => [b.key]
    case None => []
  }

  function RemoveStep(): (Removal, string) -> Removal {
    (r: Removal, line: string) =>
      if IsBegin(line) then r.(inBlock := true)
      else if IsEnd(line) then r.(inBlock := false)
      else if r.inBlock then r.(removed := r.removed + NameOf(line))
      else r.(lines := r.lines + [line])
  }

  /** The lines removal keeps, and the names it reports. */
  function RemoveBlock(lines: seq<string>): Removal {
    Fold(RemoveStep(), Removal([], false, []), lines)
  }

  // ── the merge ──────────────────────────────────────────────────────────────

  /** Requested variables not already defined outside the block. */
  function ToWrite(env: seq<Binding>, outside: map<string, string>): seq<Binding> {
    Filter(env, (b: Binding) => b.key !in outside)
  }

  function Assignment(b: Binding): string {
    b.key + "=" + b.value
  }

  function Assignments(bs: seq<Binding>): seq<string> {
    seq(|bs|, i requires 0 <= i < |bs| => Assignment(bs[i]))
  }

  function Block(bs: seq<Binding>): seq<string> {
    [BEGIN] + Assignments(bs) + [END]
  }

  function Appended(lines: seq<string>, block: seq<string>): seq<string> {
    lines + (if lines != [] && Strip(lines[|lines| - 1]) != "" then [""] else []) + block
  }

  function MergedLines(lines: seq<string>, env: seq<Binding>): seq<string> {
    var block := Block(ToWrite(env, ParseKeys(lines, true)));
    var r := Fold(RewriteStep(block), Rewrite([], false, false), lines);
    if r.replaced then r.lines else Appended(r.lines, block)
  }

  /** A table holds exactly these variables. */
  predicate Holds(bs: seq<Binding>, table: map<string, string>) {
    && (forall i :: 0 <= i < |bs| ==> bs[i].key in table && table[bs[i].key] == bs[i].value)
    && |bs| == |table|
  }

  /** Every variable to write is already in the block with its value, and nothing else is. */
  predicate AlreadyManaged(lines: seq<string>, env: seq<Binding>) {
    var outside := ParseKeys(lines, true);
    Holds(ToWrite(env, outside), ParseKeys(lines, false) - outside.Keys)
  }

  /** One more line is one more step. */
  lemma FoldSnoc<S>(step: (S, string) -> S, start: S, lines: seq<string>, i: nat)
    requires i < |lines|
    ensures Fold(step, start, lines[..i + 1]) == step(Fold(step, start, lines[..i]), lines[i])
  {
    assert lines[..i + 1][..i] == lines[..i];
  }

  method ParseExistingEnvKeys(lines: seq<string>, excludeBlock: bool) returns (result: map<string, string>)
    ensures result == ParseKeys(lines, excludeBlock)
  {
    result := map[];
    var inBlock := false;
    for i := 0 to |lines|
      invariant Parsed(inBlock, result) == Fold(ParseStep(excludeBlock), Parsed(false, map[]), lines[..i])
    {
      var line := lines[i];
      FoldSnoc(ParseStep(excludeBlock), Parsed(false, map[]), lines, i);
      if IsBegin(line) {
        inBlock := true;
        continue;
      }
      if IsEnd(line) {
        inBlock := false;
        continue;
      }
      if excludeBlock && inBlock {
        continue;
      }
      var b := BindingOf(line);
      if b.Some? {
        assert result[b.value.key := b.value.value] == result + LineKeys(line);
        result := result[b.value.key := b.value.value];
      } else {
        assert result == result + LineKeys(line);
      }
    }
    assert lines[..|lines|] == lines;
  }

  /** The variables the merge leaves alone because the file already gives them another value. */
  predicate Conflicting(b: Binding, outside: map<string, string>) {
    b.key in outside && outside[b.key] != b.value
  }

  function SkippedKeys(env: seq<Binding>, outside: map<string, string>): seq<string> {
    if env == [] then []
    else
      var b := env[|env| - 1];
      SkippedKeys(env[..|env| - 1], outside) + (if Conflicting(b, outside) then [b.key] else [])
  }

  method Partition(env: seq<Binding>, outside: map<string, string>)
    returns (toWrite: seq<Binding>, skipped: seq<string>)
    ensures toWrite == ToWrite(env, outside) && skipped == SkippedKeys(env, outside)
  {
    skipped, toWrite := [], [];
    for i := 0 to |env|
      invariant toWrite == ToWrite(env[..i], outside)
      invariant skipped == SkippedKeys(env[..i], outside)
    {
      assert env[..i + 1][..i] == env[..i];
      if env[i].key in outside {
        if outside[env[i].key] != env[i].value {
          skipped := skipped + [env[i].key];
        }
        continue;
      }
      toWrite := toWrite + [env[i]];
    }
    assert env[..|env|] == env;
  }

  function Keys(bs: seq<Binding>): seq<string> {
    seq(|bs|, i requires 0 <= i < |bs| => bs[i].key)
  }

  method MergeEnvFileBlock(lines: seq<string>, env: seq<Binding>)
    returns (newLines: seq<string>, changed: seq<string>, skipped: seq<string>)
    ensures newLines == MergedLines(lines, env)
    ensures changed == if AlreadyManaged(lines, env) then [] else Keys(ToWrite(env, ParseKeys(lines, true)))
    ensures skipped == SkippedKeys(env, ParseKeys(lines, true))
  {
    var outside := ParseExistingEnvKeys(lines, true);
    var existing := ParseExistingEnvKeys(lines, false);
    var toWrite;
    toWrite, skipped := Partition(env, outside);
    changed := if Holds(toWrite, existing - outside.Keys) then [] else Keys(toWrite);
    newLines := RewriteBlock(lines, Block(toWrite));
  }

  method RewriteBlock(lines: seq<string>, block: seq<string>) returns (newLines: seq<string>)
    ensures var r := Fold(RewriteStep(block), Rewrite([], false, false), lines);
      newLines == if r.replaced then r.lines else Appended(r.lines, block)
  {
    newLines := [];
    var inBlock, replaced := false, false;
    for i := 0 to |lines|
      invariant Rewrite(newLines, inBlock, replaced) == Fold(RewriteStep(block), Rewrite([], false, false), lines[..i])
    {
      assert lines[..i + 1][..i] == lines[..i];
      if IsBegin(lines[i]) {
        inBlock := true;
        continue;
      }
      if IsEnd(lines[i]) {
        inBlock := false;
        newLines := newLines + block;
        replaced := true;
        continue;
      }
      if inBlock {
        continue;
      }
      newLines := newLines + [lines[i]];
    }
    assert lines[..|lines|] == lines;
    if !replaced {
      if newLines != [] && Strip(newLines[|newLines| - 1]) != "" {
        newLines := newLines + [""];
      }
      newLines := newLines + block;
    }
  }

  method RemoveEnvFileBlock(lines: seq<string>) returns (newLines: seq<string>, removedKeys: seq<string>)
    ensures newLines == RemoveBlock(lines).lines && removedKeys == RemoveBlock(lines).removed
  {
    newLines, removedKeys := [], [];
    var inBlock := false;
    for i := 0 to |lines|
      invariant Removal(newLines, inBlock, removedKeys) == Fold(RemoveStep(), Removal([], false, []), lines[..i])
    {
      var line := lines[i];
      assert lines[..i + 1][..i] == lines[..i];
      if IsBegin(line) {
        inBlock := true;
        continue;
      }
      if IsEnd(line) {
        inBlock := false;
        continue;
      }
      if inBlock {
        var b := BindingOf(line);
        if b.Some? {
          removedKeys := removedKeys + [b.value.key];
        }
        continue;
      }
      newLines := newLines + [line];
    }
    assert lines[..|lines|] == lines;
  }

  // ── files with at most one well-formed block ───────────────────────────────

  ghost predicate AllPlain(lines: seq<string>) {
    forall i :: 0 <= i < |lines| ==> IsPlain(lines[i])
  }

  /** A file as lines before the block, the block if there is one, and lines after. */
  datatype Layout =
    | Unmanaged(lines: seq<string>)
    | Managed(pre: seq<string>, first: string, inner: seq<string>, last: string, post: seq<string>)

  ghost predicate WellFormed(l: Layout) {
    match l
    case Unmanaged(lines) => AllPlain(lines)
    case Managed(pre, first, inner, last, post) =>
      AllPlain(pre) && IsBegin(first) && AllPlain(inner) && IsEnd(last) && AllPlain(post)
  }

  function FileOf(l: Layout): seq<string> {
    match l
    case Unmanaged(lines) => lines
    case Managed(pre, first, inner, last, post) => pre + ([first] + (inner + ([last] + post)))
  }

  function OutsideLines(l: Layout): seq<string> {
    match l
    case Unmanaged(lines) => lines
    case Managed(pre, _, _, _, post) => pre + post
  }

  lemma {:induction false} FoldConcat<S>(step: (S, string) -> S, start: S, a: seq<string>, b: seq<string>)
    ensures Fold(step, start, a + b) == Fold(step, Fold(step, start, a), b)
  {
    if b == [] {
      assert a + b == a;
    } else {
      var n := |b| - 1;
      FoldConcat(step, start, a, b[..n]);
      assert (a + b)[..|a + b| - 1] == a + b[..n];
    }
  }

  lemma FoldOne<S>(step: (S, string) -> S, start: S, line: string, rest: seq<string>)
    ensures Fold(step, start, [line] + rest) == Fold(step, step(start, line), rest)
  {
    FoldConcat(step, start, [line], rest);
    assert Fold(step, start, [line]) == step(Fold(step, start, []), line) by {
      assert [line][..0] == [];
    }
  }

  lemma FoldLayout<S>(step: (S, string) -> S, start: S,
                      pre: seq<string>, first: string, inner: seq<string>, last: string, post: seq<string>)
    ensures Fold(step, start, pre + ([first] + (inner + ([last] + post))))
         == Fold(step, step(Fold(step, step(Fold(step, start, pre), first), inner), last), post)
  {
    FoldConcat(step, start, pre, [first] + (inner + ([last] + post)));
    var s1 := Fold(step, start, pre);
    FoldOne(step, s1, first, inner + ([last] + post));
    var s2 := step(s1, first);
    FoldConcat(step, s2, inner, [last] + post);
    FoldOne(step, Fold(step, s2, inner), last, post);
  }

  lemma SentinelsDiffer(line: string)
    requires IsEnd(line)
    ensures !IsBegin(line)
  {
    assert BEGIN[2] == 'B' && END[2] == 'E';
  }

  /** Later lines override earlier ones. */
  function Overlay(each: string -> map<string, string>, lines: seq<string>): map<string, string> {
    if lines == [] then map[] else Overlay(each, lines[..|lines| - 1]) + each(lines[|lines| - 1])
  }

  lemma OverlayAssoc(a: map<string, string>, b: map<string, string>, c: map<string, string>)
    ensures (a + b) + c == a + (b + c)
  {
  }

  lemma {:induction false} OverlayConcat(each: string -> map<string, string>, a: seq<string>, b: seq<string>)
    ensures Overlay(each, a + b) == Overlay(each, a) + Overlay(each, b)
  {
    if b == [] {
      assert a + b == a;
      assert Overlay(each, a) + map[] == Overlay(each, a);
    } else {
      var front, last := b[..|b| - 1], b[|b| - 1];
      OverlayConcat(each, a, front);
      assert (a + b)[..|a + b| - 1] == a + front;
      OverlayAssoc(Overlay(each, a), Overlay(each, front), each(last));
    }
  }

  function KeysOfLine(): string -> map<string, string> {
    (line: string) => LineKeys(line)
  }

  /** The bindings of sentinel-free lines. */
  function PlainKeys(lines: seq<string>): map<string, string> {
    Overlay(KeysOfLine(), lines)
  }

  lemma PlainKeysConcat(a: seq<string>, b: seq<string>)
    ensures PlainKeys(a + b) == PlainKeys(a) + PlainKeys(b)
  {
    OverlayConcat(KeysOfLine(), a, b);
  }

  lemma ParsePlainLine(exclude: bool, p: Parsed, line: string)
    requires IsPlain(line)
    ensures ParseStep(exclude)(p, line)
         == if exclude && p.inBlock then p else Parsed(p.inBlock, p.keys + KeysOfLine()(line))
  {
  }

  lemma {:induction false} ParsePlain(exclude: bool, p: Parsed, lines: seq<string>)
    requires AllPlain(lines)
    ensures Fold(ParseStep(exclude), p, lines)
         == if exclude && p.inBlock then p else Parsed(p.inBlock, p.keys + PlainKeys(lines))
  {
    if lines == [] {
      assert p.keys + map[] == p.keys;
    } else {
      var front, last := lines[..|lines| - 1], lines[|lines| - 1];
      ParsePlain(exclude, p, front);
      ParsePlainLine(exclude, Fold(ParseStep(exclude), p, front), last);
      OverlayAssoc(p.keys, PlainKeys(front), KeysOfLine()(last));
    }
  }

  lemma {:induction false} RewritePlain(block: seq<string>, r: Rewrite, lines: seq<string>)
    requires AllPlain(lines)
    ensures Fold(RewriteStep(block), r, lines) == if r.inBlock then r else r.(lines := r.lines + lines)
  {
    if lines != [] {
      RewritePlain(block, r, lines[..|lines| - 1]);
    }
  }

  /** What each line yields, in order. */
  function Collect(each: string -> seq<string>, lines: seq<string>): seq<string> {
    if lines == [] then [] else Collect(each, lines[..|lines| - 1]) + each(lines[|lines| - 1])
  }

  function NameOfLine(): string -> seq<string> {
    (line: string) => NameOf(line)
  }

  /** The names sentinel-free lines assign, in order. */
  function Names(lines: seq<string>): seq<string> {
    Collect(NameOfLine(), lines)
  }

  lemma {:induction false} RemovePlain(r: Removal, lines: seq<string>)
    requires AllPlain(lines)
    ensures Fold(RemoveStep(), r, lines)
         == if r.inBlock then r.(removed := r.removed + Names(lines)) else r.(lines := r.lines + lines)
  {
    if lines != [] {
      RemovePlain(r, lines[..|lines| - 1]);
    } else {
      assert r.lines + lines == r.lines && r.removed + Names(lines) == r.removed;
    }
  }

  /** What a parse of a well-formed file sees, with the block or without. */
  lemma ParseLayoutKind(l: Layout, exclude: bool)
    requires WellFormed(l)
    ensures ParseKeys(FileOf(l), exclude) == match l
      case Unmanaged(lines) => PlainKeys(lines)
      case Managed(pre, _, inner, _, post) =>
        if exclude then PlainKeys(pre + post) else PlainKeys(pre) + PlainKeys(inner) + PlainKeys(post)
  {
    var step, start := ParseStep(exclude), Parsed(false, map[]);
    match l
    case Unmanaged(lines) => ParsePlain(exclude, start, lines);
    case Managed(pre, first, inner, last, post) =>
      SentinelsDiffer(last);
      FoldLayout(step, start, pre, first, inner, last, post);
      ParsePlain(exclude, start, pre);
      var s1 := Parsed(false, PlainKeys(pre));
      assert Fold(step, start, pre) == s1;
      var s2 := s1.(inBlock := true);
      assert step(s1, first) == s2;
      ParsePlain(exclude, s2, inner);
      var s3 := Fold(step, s2, inner);
      var s4 := s3.(inBlock := false);
      assert step(s3, last) == s4;
      ParsePlain(exclude, s4, post);
      PlainKeysConcat(pre, post);
  }

  /** The rewrite pass replaces the block in place, or leaves the lines for the block to be appended. */
  lemma RewriteLayout(l: Layout, block: seq<string>)
    requires WellFormed(l)
    ensures Fold(RewriteStep(block), Rewrite([], false, false), FileOf(l)) == match l
      case Unmanaged(lines) => Rewrite(lines, false, false)
      case Managed(pre, _, _, _, post) => Rewrite(pre + block + post, false, true)
  {
    var step, start := RewriteStep(block), Rewrite([], false, false);
    match l
    case Unmanaged(lines) =>
      RewritePlain(block, start, lines);
      assert [] + lines == lines;
    case Managed(pre, first, inner, last, post) =>
      SentinelsDiffer(last);
      FoldLayout(step, start, pre, first, inner, last, post);
      RewritePlain(block, start, pre);
      var s1 := Rewrite(pre, false, false);
      assert Fold(step, start, pre) == s1 by { assert [] + pre == pre; }
      var s2 := Rewrite(pre, true, false);
      assert step(s1, first) == s2;
      RewritePlain(block, s2, inner);
      var s3 := Rewrite(pre + block, false, true);
      assert step(s2, last) == s3;
      RewritePlain(block, s3, post);
  }

  /** Removal leaves exactly the lines outside the block and reports the names inside it. */
  lemma RemoveLayout(l: Layout)
    requires WellFormed(l)
    ensures RemoveBlock(FileOf(l)) == Removal(OutsideLines(l), false, if l.Managed? then Names(l.inner) else [])
  {
    var step, start := RemoveStep(), Removal([], false, []);
    match l
    case Unmanaged(lines) =>
      RemovePlain(start, lines);
      assert [] + lines == lines;
    case Managed(pre, first, inner, last, post) =>
      SentinelsDiffer(last);
      FoldLayout(step, start, pre, first, inner, last, post);
      RemovePlain(start, pre);
      var s1 := Removal(pre, false, []);
      assert Fold(step, start, pre) == s1 by { assert [] + pre == pre; }
      var s2 := Removal(pre, true, []);
      assert step(s1, first) == s2;
      RemovePlain(s2, inner);
      var s3 := Removal(pre, true, Names(inner));
      assert Fold(step, s2, inner) == s3 by { assert [] + Names(inner) == Names(inner); }
      var s4 := Removal(pre, false, Names(inner));
      assert step(s3, last) == s4;
      RemovePlain(s4, post);
  }

  // ── tidy variables read back as written ────────────────────────────────────

  predicate Trimmed(s: string) {
    s == "" || (!IsSpace(s[0]) && !IsSpace(s[|s| - 1]))
  }

  lemma StripTrimmed(s: string)
    requires Trimmed(s)
    ensures Strip(s) == s
  {
  }

  /** A variable an installer asks for: a name that is not empty, not a comment and without '=', all trimmed. */
  predicate Writable(b: Binding) {
    b.key != "" && b.key[0] != '#' && '=' !in b.key && Trimmed(b.key) && Trimmed(b.value)
  }

  ghost predicate AllWritable(bs: seq<Binding>) {
    forall i :: 0 <= i < |bs| ==> Writable(bs[i])
  }

  ghost predicate DistinctKeys(bs: seq<Binding>) {
    forall i, j :: 0 <= i < j < |bs| ==> bs[i].key != bs[j].key
  }

  ghost predicate Tidy(bs: seq<Binding>) {
    AllWritable(bs) && DistinctKeys(bs)
  }

  lemma AssignmentReads(b: Binding)
    requires Writable(b)
    ensures BindingOf(Assignment(b)) == Some(b) && IsPlain(Assignment(b))
  {
    var s := Assignment(b);
    assert s[0] == b.key[0];
    assert Trimmed(s);
    StripTrimmed(s);
    assert s[|b.key|] == '=';
    var i := EqualsAt(s);
    assert forall j :: 0 <= j < |b.key| ==> s[j] == b.key[j];
    assert i == |b.key|;
    assert s[..i] == b.key && s[i + 1..] == b.value;
    StripTrimmed(b.key);
    StripTrimmed(b.value);
    assert BEGIN[0] == '#' && END[0] == '#';
  }

  /** A table of bindings. */
  function Table(bs: seq<Binding>): map<string, string> {
    if bs == [] then map[] else Table(bs[..|bs| - 1])[bs[|bs| - 1].key := bs[|bs| - 1].value]
  }

  lemma AssignmentsPlain(bs: seq<Binding>)
    requires AllWritable(bs)
    ensures AllPlain(Assignments(bs))
  {
    forall i | 0 <= i < |bs| ensures IsPlain(Assignments(bs)[i]) {
      AssignmentReads(bs[i]);
    }
  }

  lemma {:induction false} OverlayTable(each: string -> map<string, string>, lines: seq<string>, bs: seq<Binding>)
    requires |lines| == |bs| && forall i :: 0 <= i < |bs| ==> each(lines[i]) == map[bs[i].key := bs[i].value]
    ensures Overlay(each, lines) == Table(bs)
  {
    if bs != [] {
      OverlayTable(each, lines[..|bs| - 1], bs[..|bs| - 1]);
    }
  }

  lemma AssignmentsRead(bs: seq<Binding>)
    requires AllWritable(bs)
    ensures PlainKeys(Assignments(bs)) == Table(bs)
  {
    forall i | 0 <= i < |bs| ensures KeysOfLine()(Assignments(bs)[i]) == map[bs[i].key := bs[i].value] {
      AssignmentReads(bs[i]);
    }
    OverlayTable(KeysOfLine(), Assignments(bs), bs);
  }

  lemma {:induction false} TableKeys(bs: seq<Binding>)
    ensures forall k :: k in Table(bs) <==> exists i :: 0 <= i < |bs| && bs[i].key == k
  {
    if bs != [] {
      var n := |bs| - 1;
      TableKeys(bs[..n]);
      forall k | k in Table(bs[..n]) ensures exists i :: 0 <= i < |bs| && bs[i].key == k {
        var i :| 0 <= i < n && bs[..n][i].key == k;
        assert bs[i].key == k;
      }
    }
  }

  lemma {:induction false} TableSize(bs: seq<Binding>)
    requires DistinctKeys(bs)
    ensures |Table(bs)| == |bs|
  {
    if bs != [] {
      var n := |bs| - 1;
      TableSize(bs[..n]);
      TableKeys(bs[..n]);
      assert bs[n].key !in Table(bs[..n]);
    }
  }

  lemma {:induction false} TableReads(bs: seq<Binding>, i: nat)
    requires DistinctKeys(bs) && i < |bs|
    ensures bs[i].key in Table(bs) && Table(bs)[bs[i].key] == bs[i].value
  {
    var n := |bs| - 1;
    if i < n {
      TableReads(bs[..n], i);
      assert bs[n].key != bs[i].key;
    }
  }

  lemma TableHolds(bs: seq<Binding>)
    requires DistinctKeys(bs)
    ensures Holds(bs, Table(bs))
  {
    TableSize(bs);
    forall i | 0 <= i < |bs| ensures bs[i].key in Table(bs) && Table(bs)[bs[i].key] == bs[i].value {
      TableReads(bs, i);
    }
  }

  lemma {:induction false} FilteredDistinct(env: seq<Binding>, keep: Binding -> bool)
    requires DistinctKeys(env)
    ensures DistinctKeys(Filter(env, keep))
  {
    if env != [] {
      var n := |env| - 1;
      FilteredDistinct(env[..n], keep);
      var r := Filter(env[..n], keep);
      forall i | 0 <= i < |r| ensures r[i].key != env[n].key {
        assert r[i] in r && r[i] in env[..n];
      }
    }
  }

  lemma ToWriteTidy(env: seq<Binding>, outside: map<string, string>)
    requires Tidy(env)
    ensures Tidy(ToWrite(env, outside))
    ensures forall b :: b in ToWrite(env, outside) <==> b in env && b.key !in outside
  {
    var r := ToWrite(env, outside);
    FilteredDistinct(env, (b: Binding) => b.key !in outside);
    forall i | 0 <= i < |r| ensures Writable(r[i]) {
      assert r[i] in r;
      var j :| 0 <= j < |env| && env[j] == r[i];
    }
  }

  /** What a block's lines hold: the variables that are not defined outside it, each with its value. */
  lemma BlockLines(env: seq<Binding>, outside: map<string, string>)
    requires Tidy(env)
    ensures var bs := ToWrite(env, outside);
      && AllPlain(Assignments(bs))
      && PlainKeys(Assignments(bs)) == Table(bs)
      && Holds(bs, Table(bs))
      && Table(bs).Keys !! outside.Keys
    ensures forall b :: b in env && b.key !in outside ==> b.key in Table(ToWrite(env, outside)) && Table(ToWrite(env, outside))[b.key] == b.value
  {
    var bs := ToWrite(env, outside);
    ToWriteTidy(env, outside);
    AssignmentsPlain(bs);
    AssignmentsRead(bs);
    TableHolds(bs);
    TableKeys(bs);
    forall k | k in Table(bs) ensures k !in outside {
      var i :| 0 <= i < |bs| && bs[i].key == k;
      assert bs[i] in bs;
    }
    forall b | b in env && b.key !in outside ensures b.key in Table(bs) && Table(bs)[b.key] == b.value {
      assert b in bs;
    }
  }

  // ── the claims ─────────────────────────────────────────────────────────────

  /** The layout a merge leaves. */
  function MergedLayout(l: Layout, env: seq<Binding>): Layout {
    var managed := Assignments(ToWrite(env, PlainKeys(OutsideLines(l))));
    match l
    case Unmanaged(lines) => Managed(Appended(lines, []), BEGIN, managed, END, [])
    case Managed(pre, _, _, _, post) => Managed(pre, BEGIN, managed, END, post)
  }

  /** Block lines set between two sentinels, in place or after the other lines. */
  lemma FileAround(l: Layout, bs: seq<Binding>)
    ensures l.Managed? ==> l.pre + Block(bs) + l.post == FileOf(Managed(l.pre, BEGIN, Assignments(bs), END, l.post))
    ensures l.Unmanaged? ==>
              Appended(l.lines, Block(bs)) == FileOf(Managed(Appended(l.lines, []), BEGIN, Assignments(bs), END, []))
  {
    var mid := Assignments(bs);
    assert [BEGIN] + mid + [END] == [BEGIN] + (mid + [END]);
    if l.Managed? {
      assert l.pre + ([BEGIN] + mid + [END]) + l.post == l.pre + ([BEGIN] + (mid + ([END] + l.post)));
    } else {
      assert Appended(l.lines, Block(bs)) == Appended(l.lines, []) + Block(bs);
      assert [END] + [] == [END];
    }
  }

  /** The merge rewrites the file of one layout into the file of another. */
  lemma MergeLayout(l: Layout, env: seq<Binding>)
    requires WellFormed(l)
    ensures MergedLines(FileOf(l), env) == FileOf(MergedLayout(l, env))
  {
    var bs := ToWrite(env, PlainKeys(OutsideLines(l)));
    ParseLayoutKind(l, true);
    RewriteLayout(l, Block(bs));
    FileAround(l, bs);
  }

  lemma SentinelsRead()
    ensures IsBegin(BEGIN) && IsEnd(END) && IsPlain("")
  {
    assert BEGIN[0] == '#' && BEGIN[|BEGIN| - 1] == 'd' && END[0] == '#' && END[|END| - 1] == 'd';
    StripTrimmed(BEGIN);
    StripTrimmed(END);
    StripTrimmed("");
  }

  lemma MergedWellFormed(l: Layout, env: seq<Binding>)
    requires WellFormed(l) && Tidy(env)
    ensures WellFormed(MergedLayout(l, env))
  {
    var outside := PlainKeys(OutsideLines(l));
    BlockLines(env, outside);
    SentinelsRead();
    if l.Unmanaged? {
      SeparatedPlain(l.lines);
    }
  }

  lemma SeparatedPlain(lines: seq<string>)
    requires AllPlain(lines) && IsPlain("")
    ensures AllPlain(Appended(lines, []))
  {
    var all := Appended(lines, []);
    forall i | 0 <= i < |all| ensures IsPlain(all[i]) {
      if i < |lines| {
        assert all[i] == lines[i];
      }
    }
  }

  lemma BlankAddsNothing(lines: seq<string>)
    ensures PlainKeys(lines + [""]) == PlainKeys(lines)
  {
    assert (lines + [""])[..|lines|] == lines;
    StripTrimmed("");
  }

  /** Lines outside the block keep content and order, up to one separating blank line when a block is first appended. */
  lemma MergeKeepsOutside(l: Layout, env: seq<Binding>)
    requires WellFormed(l)
    ensures MergedLines(FileOf(l), env) == FileOf(MergedLayout(l, env))
    ensures OutsideLines(MergedLayout(l, env)) == OutsideLines(l)
         || (l.Unmanaged? && OutsideLines(MergedLayout(l, env)) == OutsideLines(l) + [""])
    ensures PlainKeys(OutsideLines(MergedLayout(l, env))) == PlainKeys(OutsideLines(l))
  {
    MergeLayout(l, env);
    OutsideKept(l, env);
  }

  lemma OutsideKept(l: Layout, env: seq<Binding>)
    ensures OutsideLines(MergedLayout(l, env)) == OutsideLines(l)
         || (l.Unmanaged? && OutsideLines(MergedLayout(l, env)) == OutsideLines(l) + [""])
    ensures PlainKeys(OutsideLines(MergedLayout(l, env))) == PlainKeys(OutsideLines(l))
  {
    match l
    case Unmanaged(lines) =>
      BlankAddsNothing(lines);
      assert Appended(lines, []) == lines || Appended(lines, []) == lines + [""];
      assert Appended(lines, []) + [] == Appended(lines, []);
    case Managed(pre, first, inner, last, post) =>
  }

  /** The names a merged file's block is read to manage. */
  lemma MergedKeys(l: Layout, env: seq<Binding>)
    requires WellFormed(l) && Tidy(env)
    ensures var m := MergedLines(FileOf(l), env);
      var outside := PlainKeys(OutsideLines(l));
      && ParseKeys(m, true) == outside
      && ParseKeys(m, false) == outside + Table(ToWrite(env, outside))
      && ParseKeys(m, false) - outside.Keys == Table(ToWrite(env, outside))
  {
    var m := MergedLayout(l, env);
    MergeLayout(l, env);
    MergedWellFormed(l, env);
    MergeKeepsOutside(l, env);
    ParseLayoutKind(m, true);
    ParseLayoutKind(m, false);
    PlainKeysConcat(m.pre, m.post);
    var outside := PlainKeys(OutsideLines(l));
    BlockLines(env, outside);
    DisjointSum(PlainKeys(m.pre), Table(ToWrite(env, outside)), PlainKeys(m.post));
  }

  lemma DisjointSum(a: map<string, string>, t: map<string, string>, b: map<string, string>)
    requires t.Keys !! (a + b).Keys
    ensures a + t + b == (a + b) + t
    ensures (a + t + b) - (a + b).Keys == t
  {
  }

  /** Merging twice is merging once, and the second merge reports no change. */
  lemma MergeIdempotent(l: Layout, env: seq<Binding>)
    requires WellFormed(l) && Tidy(env)
    ensures var once := MergedLines(FileOf(l), env);
      MergedLines(once, env) == once && AlreadyManaged(once, env)
  {
    var m := MergedLayout(l, env);
    MergeLayout(l, env);
    MergedWellFormed(l, env);
    MergeKeepsOutside(l, env);
    MergeLayout(m, env);
    assert MergedLayout(m, env) == m;
    MergedKeys(l, env);
    BlockLines(env, PlainKeys(OutsideLines(l)));
  }

  /** After a merge every requested key reads as its value outside the block if it has one there, else as requested. */
  lemma MergeReads(l: Layout, env: seq<Binding>, b: Binding)
    requires WellFormed(l) && Tidy(env) && b in env
    ensures var outside := ParseKeys(FileOf(l), true);
      var read := ParseKeys(MergedLines(FileOf(l), env), false);
      b.key in read && read[b.key] == if b.key in outside then outside[b.key] else b.value
  {
    ParseLayoutKind(l, true);
    MergedKeys(l, env);
    BlockLines(env, PlainKeys(OutsideLines(l)));
  }

  lemma NameWritten(b: Binding)
    requires Writable(b)
    ensures NameOf(Assignment(b)) == [b.key]
  {
    AssignmentReads(b);
  }

  lemma {:induction false} CollectOnes(each: string -> seq<string>, lines: seq<string>, names: seq<string>)
    requires |lines| == |names| && forall i :: 0 <= i < |lines| ==> each(lines[i]) == [names[i]]
    ensures Collect(each, lines) == names
  {
    if lines != [] {
      CollectOnes(each, lines[..|lines| - 1], names[..|names| - 1]);
    }
  }

  /** A written block reports the names that were written, in order. */
  lemma NamesWritten(bs: seq<Binding>)
    requires AllWritable(bs)
    ensures Names(Assignments(bs)) == Keys(bs)
  {
    forall i | 0 <= i < |bs| ensures NameOfLine()(Assignments(bs)[i]) == [Keys(bs)[i]] {
      NameWritten(bs[i]);
    }
    CollectOnes(NameOfLine(), Assignments(bs), Keys(bs));
  }

  /** Removing the block after a merge gives back the lines outside it, up to one trailing blank line,
      and reports exactly the names the merge wrote. */
  lemma RemoveAfterMerge(l: Layout, env: seq<Binding>)
    requires WellFormed(l) && Tidy(env)
    ensures var back := RemoveBlock(MergedLines(FileOf(l), env));
      && (l.Managed? ==> back.lines == OutsideLines(l))
      && (back.lines == OutsideLines(l) || back.lines == OutsideLines(l) + [""])
      && back.removed == Keys(ToWrite(env, ParseKeys(FileOf(l), true)))
  {
    ParseLayoutKind(l, true);
    MergeLayout(l, env);
    MergedWellFormed(l, env);
    MergeKeepsOutside(l, env);
    RemoveLayout(MergedLayout(l, env));
    ToWriteTidy(env, PlainKeys(OutsideLines(l)));
    NamesWritten(ToWrite(env, PlainKeys(OutsideLines(l))));
  }

  /** Outside the well-formed files the promise fails: a block that is opened and never closed takes
      every later line with it, whatever those lines say. */
  lemma UnclosedBlockSwallowsRest(pre: seq<string>, first: string, rest: seq<string>, env: seq<Binding>)
    requires AllPlain(pre) && IsBegin(first) && AllPlain(rest)
    ensures MergedLines(pre + ([first] + rest), env) == Appended(pre, Block(ToWrite(env, PlainKeys(pre))))
    ensures RemoveBlock(pre + ([first] + rest)).lines == pre
  {
    UnclosedParse(pre, first, rest);
    UnclosedRewrite(pre, first, rest, Block(ToWrite(env, PlainKeys(pre))));
    var step, start := RemoveStep(), Removal([], false, []);
    FoldConcat(step, start, pre, [first] + rest);
    RemovePlain(start, pre);
    assert [] + pre == pre;
    FoldOne(step, Removal(pre, false, []), first, rest);
    RemovePlain(Removal(pre, true, []), rest);
  }

  lemma UnclosedParse(pre: seq<string>, first: string, rest: seq<string>)
    requires AllPlain(pre) && IsBegin(first) && AllPlain(rest)
    ensures ParseKeys(pre + ([first] + rest), true) == PlainKeys(pre)
  {
    var step, start := ParseStep(true), Parsed(false, map[]);
    FoldConcat(step, start, pre, [first] + rest);
    ParsePlain(true, start, pre);
    var s1 := Parsed(false, PlainKeys(pre));
    assert Fold(step, start, pre) == s1;
    FoldOne(step, s1, first, rest);
    ParsePlain(true, s1.(inBlock := true), rest);
  }

  lemma UnclosedRewrite(pre: seq<string>, first: string, rest: seq<string>, block: seq<string>)
    requires AllPlain(pre) && IsBegin(first) && AllPlain(rest)
    ensures Fold(RewriteStep(block), Rewrite([], false, false), pre + ([first] + rest)) == Rewrite(pre, true, false)
  {
    var step, start := RewriteStep(block), Rewrite([], false, false);
    FoldConcat(step, start, pre, [first] + rest);
    RewritePlain(block, start, pre);
    var s1 := Rewrite(pre, false, false);
    assert Fold(step, start, pre) == s1 by { assert [] + pre == pre; }
    FoldOne(step, s1, first, rest);
    RewritePlain(block, s1.(inBlock := true), rest);
  }

  // ── what a merge reports ───────────────────────────────────────────────────

  /** The names a merge reports as skipped are those the file already binds to another value outside the block. */
  lemma {:induction false} SkippedExactly(env: seq<Binding>, outside: map<string, string>, key: string)
    ensures key in SkippedKeys(env, outside)
        <==> exists b :: b in env && b.key == key && key in outside && outside[key] != b.value
  {
    if env != [] {
      var front, last := env[..|env| - 1], env[|env| - 1];
      assert env == front + [last];
      SkippedExactly(front, outside, key);
      if key in SkippedKeys(front, outside) {
        var b :| b in front && b.key == key && key in outside && outside[key] != b.value;
        assert b in env;
      }
      assert last in env;
    }
  }

  lemma HoldsIsTable(bs: seq<Binding>, table: map<string, string>)
    requires DistinctKeys(bs)
    ensures Holds(bs, table) <==> table == Table(bs)
  {
    TableHolds(bs);
    TableKeys(bs);
    if Holds(bs, table) {
      forall k | k in Table(bs) ensures k in table && Table(bs)[k] == table[k] {
        var i :| 0 <= i < |bs| && bs[i].key == k;
        TableReads(bs, i);
      }
      DifferenceSize(table.Keys, Table(bs).Keys);
      assert table.Keys - Table(bs).Keys == {};
      assert table.Keys == Table(bs).Keys;
    }
  }

  /** Each requested variable the file does not bind outside the block is bound in it, to the value requested. */
  ghost predicate AllThere(env: seq<Binding>, outside: map<string, string>, all: map<string, string>) {
    forall b :: b in env && b.key !in outside ==> b.key in all && all[b.key] == b.value
  }

  /** Whatever the file binds in the block alone was requested. */
  ghost predicate NothingElse(env: seq<Binding>, outside: map<string, string>, all: map<string, string>) {
    forall k :: k in all && k !in outside ==> exists b :: b in env && b.key == k
  }

  /** Two tables agree when one is what the entries say, and the other says of the entries the same and no more. */
  lemma SameTable<B(!new), K(!new), V>(bs: seq<B>, key: B -> K, value: B -> V, a: map<K, V>, b: map<K, V>)
    requires forall x :: x in bs ==> key(x) in a && a[key(x)] == value(x)
    requires forall k :: k in a ==> exists x :: x in bs && key(x) == k
    ensures b == a <==>
      (forall x :: x in bs ==> key(x) in b && b[key(x)] == value(x)) && (forall k :: k in b ==> exists x :: x in bs && key(x) == k)
  {
    if (forall x :: x in bs ==> key(x) in b && b[key(x)] == value(x)) && (forall k :: k in b ==> exists x :: x in bs && key(x) == k) {
      forall k | k in a ensures k in b && b[k] == a[k] {
        var x :| x in bs && key(x) == k;
      }
      forall k | k in b ensures k in a {
        var x :| x in bs && key(x) == k;
      }
    }
  }

  function KeyOf(): Binding -> string {
    (b: Binding) => b.key
  }

  function ValueOf(): Binding -> string {
    (b: Binding) => b.value
  }

  lemma TableIff(bs: seq<Binding>, table: map<string, string>)
    requires DistinctKeys(bs)
    ensures table == Table(bs) <==>
      (forall b :: b in bs ==> KeyOf()(b) in table && table[KeyOf()(b)] == ValueOf()(b))
      && (forall k :: k in table ==> exists b :: b in bs && KeyOf()(b) == k)
  {
    TableKeys(bs);
    forall b | b in bs ensures KeyOf()(b) in Table(bs) && Table(bs)[KeyOf()(b)] == ValueOf()(b) {
      var i :| 0 <= i < |bs| && bs[i] == b;
      TableReads(bs, i);
    }
    forall k | k in Table(bs) ensures exists b :: b in bs && KeyOf()(b) == k {
      var i :| 0 <= i < |bs| && bs[i].key == k;
      assert bs[i] in bs && KeyOf()(bs[i]) == k;
    }
    SameTable(bs, KeyOf(), ValueOf(), Table(bs), table);
  }

  lemma WrittenIff(env: seq<Binding>, bs: seq<Binding>, outside: map<string, string>, all: map<string, string>)
    requires forall b :: b in bs <==> b in env && b.key !in outside
    ensures AllThere(env, outside, all)
        <==> (forall b :: b in bs ==> KeyOf()(b) in all - outside.Keys && (all - outside.Keys)[KeyOf()(b)] == ValueOf()(b))
  {
  }

  lemma OnlyIff(env: seq<Binding>, bs: seq<Binding>, outside: map<string, string>, all: map<string, string>)
    requires forall b :: b in bs <==> b in env && b.key !in outside
    ensures NothingElse(env, outside, all)
        <==> (forall k :: k in all - outside.Keys ==> exists b :: b in bs && KeyOf()(b) == k)
  {
    if NothingElse(env, outside, all) {
      forall k | k in all - outside.Keys ensures exists b :: b in bs && KeyOf()(b) == k {
        var b :| b in env && b.key == k;
        assert b in bs && KeyOf()(b) == k;
      }
    }
    if forall k :: k in all - outside.Keys ==> exists b :: b in bs && KeyOf()(b) == k {
      forall k | k in all && k !in outside ensures exists b :: b in env && b.key == k {
        assert k in all - outside.Keys;
        var b :| b in bs && KeyOf()(b) == k;
        assert b in env && b.key == k;
      }
    }
  }

  /**
   A merge reports no change exactly when the block already binds every variable
   it is to write, to the value requested, and nothing that was not requested.
   */
  lemma UnchangedIff(lines: seq<string>, env: seq<Binding>)
    requires DistinctKeys(env)
    ensures AlreadyManaged(lines, env)
        <==> AllThere(env, ParseKeys(lines, true), ParseKeys(lines, false))
             && NothingElse(env, ParseKeys(lines, true), ParseKeys(lines, false))
  {
    var outside, all := ParseKeys(lines, true), ParseKeys(lines, false);
    var bs := ToWrite(env, outside);
    FilteredDistinct(env, (b: Binding) => b.key !in outside);
    HoldsIsTable(bs, all - outside.Keys);
    TableIff(bs, all - outside.Keys);
    WrittenIff(env, bs, outside, all);
    OnlyIff(env, bs, outside, all);
  }
}
