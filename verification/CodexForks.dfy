/** Which parent counters a forked log starts from, which records report nothing, and when a parse starts over. */
module CodexForks {
  import opened Wrappers
  import opened Events
  import opened RecordReader
  import opened CodexUsage
  import opened CodexLog
  import opened CodexResume
  import opened CodexAccounting
  import opened CodexContext
  import opened CodexLeaps

  // ----- The baseline of a fork -----

  /** Record k of the parent is the last one that carries cumulative counters and is dated no later than the fork. */
  predicate LastBefore(env: Env, records: seq<Record>, forkAt: int, k: nat) {
    && k < |records| && records[k].TokenCount? && records[k].total.Some?
    && env.parseTime(records[k].timestamp).Some? && env.parseTime(records[k].timestamp).value <= forkAt
    && forall j :: k < j < |records| && records[j].TokenCount? && records[j].total.Some? ==>
         env.parseTime(records[j].timestamp).None? || env.parseTime(records[j].timestamp).value > forkAt
  }

  /** What the parent reports after the fork, or without a date, leaves the baseline alone. */
  lemma SnapshotAtForkIff(env: Env, records: seq<Record>, forkAt: int, u: Usage)
    ensures LatestSnapshot(env, records, forkAt) == Some(u) <==>
      exists k: nat :: LastBefore(env, records, forkAt, k) && u == NormalizeTokenUsage(records[k].total.value)
  {
    if LatestSnapshot(env, records, forkAt).Some? {
      var k := LatestSnapshotAt(env, records, forkAt);
      assert LastBefore(env, records, forkAt, k);
      forall i: nat | LastBefore(env, records, forkAt, i) ensures i == k {
        assert SnapshotBy(env, records[i], forkAt) && SnapshotBy(env, records[k], forkAt);
      }
    }
    forall k: nat | LastBefore(env, records, forkAt, k) ensures LatestSnapshot(env, records, forkAt).Some? {
      SnapshotFound(env, records, forkAt, k);
    }
  }

  lemma {:induction false} SnapshotFound(env: Env, records: seq<Record>, forkAt: int, k: nat)
    requires k < |records| && SnapshotBy(env, records[k], forkAt)
    ensures LatestSnapshot(env, records, forkAt).Some?
  {
    if k < |records| - 1 && !SnapshotBy(env, records[|records| - 1], forkAt) {
      SnapshotFound(env, records[..|records| - 1], forkAt, k);
    }
  }

  /** A log has a baseline exactly when its metadata names a parent and a readable fork time, the parent's log is known,
      is another one and could be read to its end, and it has a snapshot by then. */
  lemma BaselineIff(env: Env, meta: SessionMetadata, u: Usage)
    ensures ResolveForkBaseline(env, meta) == Some(u) <==>
      exists parent, k: nat ::
        && IsFirst(
             [meta.forkedFromId, meta.forkedFromIdAlt, meta.parentSessionId, meta.parentSessionIdAlt], parent, "")
        && parent != "" && meta.timestamp != "" && parent in env.sessionFiles
        && env.sessionFiles[parent] != "" && env.sessionFiles[parent] != env.path
        && env.sessionFiles[parent] in env.parentLogs && !env.parentLogs[env.sessionFiles[parent]].readError
        && env.parseTime(meta.timestamp).Some?
        && LastBefore(
             env, env.parentLogs[env.sessionFiles[parent]].records, env.parseTime(meta.timestamp).value, k)
        && u == NormalizeTokenUsage(env.parentLogs[env.sessionFiles[parent]].records[k].total.value)
  {
    var ids := [meta.forkedFromId, meta.forkedFromIdAlt, meta.parentSessionId, meta.parentSessionIdAlt];
    var parent := ForkParentId(meta);
    FirstNonEmptyIsFirst(ids);
    assert forall other :: IsFirst(ids, other, "") ==> other == parent by {
      forall other | IsFirst(ids, other, "") ensures other == parent {
        FirstIsUnique(ids, other, parent);
      }
    }
    if parent in env.sessionFiles && env.sessionFiles[parent] in env.parentLogs && env.parseTime(meta.timestamp).Some? {
      SnapshotAtForkIff(
        env, env.parentLogs[env.sessionFiles[parent]].records, env.parseTime(meta.timestamp).value, u);
    }
  }

  lemma {:induction false} FirstNonEmptyIsFirst(texts: seq<string>)
    ensures IsFirst(texts, FirstNonEmpty(texts), "")
  {
    if texts == [] {
    } else if texts[0] != "" {
      assert texts[..0] == [];
    } else {
      FirstNonEmptyIsFirst(texts[1..]);
      if j :| 0 <= j < |texts| - 1 && texts[1..][j] == FirstNonEmpty(texts) != "" && Empty(texts[1..][..j]) {
        assert texts[..j + 1] == [""] + texts[1..][..j];
        assert texts[j + 1] == FirstNonEmpty(texts);
      }
    }
  }

  lemma EmptyAt(texts: seq<string>, j: nat, i: nat)
    requires i < j <= |texts| && Empty(texts[..j])
    ensures texts[i] == ""
  {
    assert texts[..j][i] == texts[i];
  }

  lemma FirstIsUnique(texts: seq<string>, a: string, b: string)
    requires IsFirst(texts, a, "") && IsFirst(texts, b, "")
    ensures a == b
  {
    if i: nat, j: nat :| i < |texts| && texts[i] == a != "" && Empty(texts[..i]) &&
                         j < |texts| && texts[j] == b != "" && Empty(texts[..j]) {
      if i < j {
        EmptyAt(texts, j, i);
      } else if j < i {
        EmptyAt(texts, i, j);
      }
    }
  }

  /** The baseline a record would bring; its own time stands in for a missing one in the metadata. */
  function BaselineIn(env: Env, record: Record): Option<Usage> {
    if record.SessionMeta? then
      ResolveForkBaseline(env, record.meta.(timestamp := Or(record.meta.timestamp, record.recordTimestamp)))
    else None
  }

  predicate NoneFound(found: seq<Option<Usage>>) {
    forall i :: 0 <= i < |found| ==> found[i].None?
  }

  predicate FirstFound(found: seq<Option<Usage>>, first: Option<Usage>) {
    if first.None? then NoneFound(found)
    else exists j :: 0 <= j < |found| && found[j] == first && NoneFound(found[..j])
  }

  function BaselinesIn(env: Env, records: seq<Record>): seq<Option<Usage>> {
    seq(|records|, i requires 0 <= i < |records| => BaselineIn(env, records[i]))
  }

  function BaselineOf(s: ParseState): Option<Usage> {
    if s.forkResolved then Some(s.baseline) else None
  }

  lemma BaselineStep(env: Env, s: ParseState, line: nat, record: Record)
    ensures BaselineOf(TakeRecord(env, s, line, record).0) ==
      if s.forkResolved then BaselineOf(s) else BaselineIn(env, record)
  {
    if record.SessionMeta? {
      FirstOfTwo(record.meta.timestamp, record.recordTimestamp);
    }
  }

  lemma FirstOfMore(found: seq<Option<Usage>>, first: Option<Usage>, next: Option<Usage>)
    requires FirstFound(found, first)
    ensures FirstFound(found + [next], if first.Some? then first else next)
  {
    var more := found + [next];
    if first.Some? {
      var j :| 0 <= j < |found| && found[j] == first && NoneFound(found[..j]);
      assert more[j] == first && more[..j] == found[..j];
    } else if next.Some? {
      assert more[|found|] == next && more[..|found|] == found;
    }
  }

  ghost predicate BaselinesFollow(env: Env, take: Take) {
    forall s, line, record :: BaselineOf(take(s, line, record).0) ==
      if s.forkResolved then BaselineOf(s) else BaselineIn(env, record)
  }

  lemma RecordsBringBaselines(env: Env)
    ensures BaselinesFollow(env, TakeOf(env))
  {
    forall s, line, record ensures BaselineOf(TakeOf(env)(s, line, record).0) ==
      if s.forkResolved then BaselineOf(s) else BaselineIn(env, record) {
      BaselineStep(env, s, line, record);
    }
  }

  lemma {:induction false} FirstBaseline(
    env: Env, take: Take, s: ParseState, known: Option<Usage>, records: seq<Record>)
    requires BaselinesFollow(env, take) && BaselineOf(s) == known
    ensures FirstFound([known] + BaselinesIn(env, records), BaselineOf(StateAfter(take, s, records)))
  {
    if records == [] {
      assert [known] + BaselinesIn(env, []) == [known];
      assert [known][..0] == [] && [known][0] == BaselineOf(s);
    } else {
      var init, record := records[..|records| - 1], records[|records| - 1];
      var before := StateAfter(take, s, init);
      FirstBaseline(env, take, s, known, init);
      FirstOfMore([known] + BaselinesIn(env, init), BaselineOf(before), BaselineIn(env, record));
      assert [known] + BaselinesIn(env, records) == [known] + BaselinesIn(env, init) + [BaselineIn(env, record)];
    }
  }

  /** The fork of a log is resolved once: by what is known about the log, or else by the first session record that
      can. */
  lemma ForkResolvedOnce(env: Env, records: seq<Record>)
    ensures FirstFound(
      [ResolveForkBaseline(env, env.sourceMetadata)] + BaselinesIn(env, records),
      BaselineOf(StateAfter(TakeOf(env), Start(env).state, records)))
  {
    RecordsBringBaselines(env);
    FirstBaseline(env, TakeOf(env), Start(env).state, ResolveForkBaseline(env, env.sourceMetadata), records);
  }

  /** A session record that resolves the fork late starts the count over: the snapshots after it are copies until they
      pass the baseline, and then counted from it. */
  lemma LateForkStartsOver(env: Env, s: ParseState, line: nat, record: Record, us: seq<Usage>)
    requires !s.forkResolved && BaselineIn(env, record).Some?
    ensures
      var after, baseline := TakeRecord(env, s, line, record).0, BaselineIn(env, record).value;
      && after.forkResolved && after.remainingPrefix == baseline
      && LeapsFrom(after, us) == Leaps(baseline, PastFork(us, baseline))
  {
    FirstOfTwo(record.meta.timestamp, record.recordTimestamp);
  }

  // ----- Which records report nothing -----

  /** A token record reports nothing exactly when its time is unreadable, it has no counters, its single usage is zero,
      or its cumulative counters are zero and nothing came before them. */
  lemma ReportsNothingIff(env: Env, s: ParseState, line: nat, record: Record)
    requires Counting(s) && record.TokenCount?
    ensures TakeRecord(env, s, line, record).1.None? <==>
      || env.parseTime(record.timestamp).None?
      || (record.total.None? && record.last.None?)
      || (record.total.None? && record.last.Some? && NormalizeTokenUsage(record.last.value) == ZERO)
      || (record.total.Some? && !s.prefixPending && !s.hasPrevious && NormalizeTokenUsage(record.total.value) == ZERO)
  {
    if record.total.Some? {
      CumulativeSkipIff(s, NormalizeTokenUsage(record.total.value));
    } else if record.last.Some? {
      LastSkipIff(s, NormalizeTokenUsage(record.last.value));
    }
  }

  lemma CumulativeSkipIff(s: ParseState, u: Usage)
    requires Counting(s) && u.NonNegative() && u.cached <= u.input && u.reasoning <= u.output
    ensures CountCumulative(s, u).skip <==> !s.prefixPending && !s.hasPrevious && u == ZERO
  {
  }

  lemma LastSkipIff(s: ParseState, u: Usage)
    requires u.NonNegative() && u.cached <= u.input && u.reasoning <= u.output
    ensures CountLast(s, u).skip <==> u == ZERO
  {
  }

  // ----- Where a parse starts -----

  /** Equal from here on. */
  predicate SameRest(log: seq<byte>, other: seq<byte>, from: nat) {
    from <= |log| == |other| && log[from..] == other[from..]
  }

  lemma {:induction false} OnlyTheRestIsParsed(step: Step, log: seq<byte>, other: seq<byte>, p: Progress)
    requires SameRest(log, other, p.offset)
    ensures ParseFrom(step, log, p) == ParseFrom(step, other, p)
    decreases |log| - p.offset
  {
    SameLineEnd(log, other, p.offset);
    if Terminated(log, p.offset) {
      var end := LineEnd(log, p.offset);
      SameSlices(log, other, p.offset, end);
      var q := TakeLine(step, p, log[p.offset..end]);
      assert q.offset == end;
      OnlyTheRestIsParsed(step, log, other, q);
    }
  }

  lemma {:induction false} OnlyTheRestMustFit(log: seq<byte>, other: seq<byte>, from: nat, limit: nat)
    requires SameRest(log, other, from)
    ensures RecordsFit(log, from, limit) == RecordsFit(other, from, limit)
    decreases |log| - from
  {
    SameLineEnd(log, other, from);
    if Terminated(log, from) {
      SameSlices(log, other, from, LineEnd(log, from));
      OnlyTheRestMustFit(log, other, LineEnd(log, from), limit);
    }
  }

  lemma SameSlices(log: seq<byte>, other: seq<byte>, from: nat, to: nat)
    requires SameRest(log, other, from) && from <= to <= |log|
    ensures SameRest(log, other, to) && log[from..to] == other[from..to]
  {
    assert log[to..] == log[from..][to - from..] && other[to..] == other[from..][to - from..];
    assert log[from..to] == log[from..][..to - from] && other[from..to] == other[from..][..to - from];
  }

  lemma {:induction false} SameLineEnd(log: seq<byte>, other: seq<byte>, from: nat)
    requires SameRest(log, other, from)
    ensures LineEnd(log, from) == LineEnd(other, from) && Terminated(log, from) == Terminated(other, from)
    decreases |log| - from
  {
    if from < |log| {
      assert log[from] == log[from..][0] && other[from] == other[from..][0];
      assert log[from + 1..] == log[from..][1..] && other[from + 1..] == other[from..][1..];
      SameLineEnd(log, other, from + 1);
    }
  }

  /** A cursor is used if and only if it has a state of this version, a position inside the log, and the identities of
      the log; anything else is a parse from the beginning, and a used one never reads what is before it. */
  lemma StartsOverOrGoesOn(env: Env, log: seq<byte>, cursor: Cursor, other: seq<byte>)
    ensures
      if cursor.saved.Some? && cursor.saved.value.version == 1 &&
         cursor.saved.value.cacheIdentity == env.cacheIdentity && 0 < cursor.offset <= |log| && 0 < cursor.line &&
         (cursor.identity == "" || cursor.identity == "sha256:" + env.path)
      then |other| == |log| && other[cursor.offset..] == log[cursor.offset..] ==>
        Parse(env, other, cursor) == Parse(env, log, cursor)
      else Parse(env, log, cursor) == Parse(env, log, NO_CURSOR)
  {
    if Resumable(env, log, cursor) && |other| == |log| && other[cursor.offset..] == log[cursor.offset..] {
      OnlyTheRestIsParsed(StepOf(env), log, other, ResumePoint(env, log, cursor));
      OnlyTheRestMustFit(log, other, cursor.offset, env.recordLimit);
    }
  }
}
