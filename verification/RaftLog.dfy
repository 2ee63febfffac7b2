/** The persistent Raft log (src/cluster/raft_log.rs): a table from index to entry and
    the purge point, refining an offset and a sequence. */
module RaftLog {
  import opened Common
  import opened RaftStateMachine

  // ---- the table and its operations ----

  datatype Table = Table(rows: map<nat, Entry>, purged: Option<LogId>)

  const EMPTY_TABLE := Table(map[], None)

  function Insert(rows: map<nat, Entry>, es: seq<Entry>): map<nat, Entry> {
    if es == [] then rows
    else
      var n := |es| - 1;
      Insert(rows, es[..n])[es[n].logId.index := es[n]]
  }

  function Below(rows: map<nat, Entry>, index: nat): map<nat, Entry> {
    map k | k in rows && k < index :: rows[k]
  }

  function Above(rows: map<nat, Entry>, index: nat): map<nat, Entry> {
    map k | k in rows && k > index :: rows[k]
  }

  /** `ks` lists the keys of `rows` from `lo` up to but not including `hi`, ascending. */
  ghost predicate IsRange(rows: map<nat, Entry>, lo: nat, hi: Option<nat>, ks: seq<nat>) {
    && (forall k :: k in ks <==> k in rows && lo <= k && (hi.Some? ==> k < hi.value))
    && (forall i, j :: 0 <= i < j < |ks| ==> ks[i] < ks[j])
  }

  function Rows(rows: map<nat, Entry>, ks: seq<nat>): (r: seq<Entry>)
    requires forall k :: k in ks ==> k in rows
    ensures |r| == |ks|
  {
    seq(|ks|, i requires 0 <= i < |ks| => rows[ks[i]])
  }

  class LogStore {
    var rows: map<nat, Entry>
    var purged: Option<LogId>

    ghost function Contents(): Table
      reads this
    {
      Table(rows, purged)
    }

    constructor ()
      ensures Contents() == EMPTY_TABLE
    {
      rows, purged := map[], None;
    }

    /** The ordered iterator of the embedded key-value store. */
    method RangeKeys(lo: nat, hi: Option<nat>) returns (ks: seq<nat>)
      ensures IsRange(rows, lo, hi, ks)
    {
      var left := set k | k in rows && lo <= k && (hi.Some? ==> k < hi.value) :: k;
      ks := [];
      while left != {}
        invariant forall k :: k in rows && lo <= k && (hi.Some? ==> k < hi.value) <==> k in left || k in ks
        invariant forall k, i :: k in left && 0 <= i < |ks| ==> ks[i] < k
        invariant forall i, j :: 0 <= i < j < |ks| ==> ks[i] < ks[j]
        decreases left
      {
        var least := Least(left);
        left := left - {least};
        ks := ks + [least];
      }
    }

    method Append(es: seq<Entry>)
      modifies this
      ensures rows == Insert(old(rows), es) && purged == old(purged)
    {
      for i := 0 to |es|
        invariant rows == Insert(old(rows), es[..i]) && purged == old(purged)
      {
        assert es[..i + 1][..i] == es[..i];
        rows := rows[es[i].logId.index := es[i]];
      }
      assert es[..|es|] == es;
    }

    method Truncate(id: LogId)
      modifies this
      ensures rows == Below(old(rows), id.index) && purged == old(purged)
    {
      var toRemove := RangeKeys(id.index, None);
      for i := 0 to |toRemove|
        invariant rows == old(rows) - (set j | 0 <= j < i :: toRemove[j])
        invariant purged == old(purged)
      {
        rows := rows - {toRemove[i]};
      }
    }

    method Purge(id: LogId)
      modifies this
      ensures rows == Above(old(rows), id.index) && purged == Some(id)
    {
      var toRemove := RangeKeys(0, Some(id.index + 1));
      for i := 0 to |toRemove|
        invariant rows == old(rows) - (set j | 0 <= j < i :: toRemove[j])
      {
        rows := rows - {toRemove[i]};
      }
      purged := Some(id);
    }

    /** The purge point and the id of the last entry, or the purge point when the table
        holds no entry. */
    method GetLogState() returns (lastPurged: Option<LogId>, last: Option<LogId>)
      ensures lastPurged == purged
      ensures rows == map[] ==> last == purged
      ensures rows != map[] ==>
                exists k :: (k in rows && last == Some(rows[k].logId) && forall j :: j in rows ==> j <= k)
    {
      lastPurged := purged;
      var ks := RangeKeys(0, None);
      if ks == [] {
        assert forall k :: k !in rows;
        last := lastPurged;
      } else {
        var k := ks[|ks| - 1];
        last := Some(rows[k].logId);
      }
    }

    method TryGetLogEntries(lo: nat, hi: Option<nat>) returns (entries: seq<Entry>)
      ensures exists ks :: IsRange(rows, lo, hi, ks) && entries == Rows(rows, ks)
    {
      var ks := RangeKeys(lo, hi);
      entries := [];
      for i := 0 to |ks|
        invariant |entries| == i && forall j :: 0 <= j < i ==> entries[j] == rows[ks[j]]
      {
        entries := entries + [rows[ks[i]]];
      }
      assert entries == Rows(rows, ks);
    }
  }

  method Least(s: set<nat>) returns (m: nat)
    requires s != {}
    ensures m in s && forall k :: k in s ==> m <= k
  {
    m :| m in s;
    var left := s - {m};
    while left != {}
      invariant left <= s && m in s && m !in left
      invariant forall k :: k in s && k !in left ==> m <= k
      decreases left
    {
      var k :| k in left;
      left := left - {k};
      if k < m {
        m := k;
      }
    }
  }

  // ---- the abstract log ----

  datatype Log = Log(purged: Option<LogId>, entries: seq<Entry>) {
    /** The index of the first entry. */
    function Offset(): nat {
      if purged.None? then 0 else purged.value.index + 1
    }

    function End(): nat { Offset() + |entries| }

    function LastId(): Option<LogId> {
      if entries == [] then purged else Some(entries[|entries| - 1].logId)
    }

    /** The entries with indices in `lo..hi`. */
    function Slice(lo: nat, hi: Option<nat>): seq<Entry> {
      var from := if lo <= Offset() then 0 else if lo >= End() then |entries| else lo - Offset();
      var to := if hi.None? || hi.value >= End() then |entries| else if hi.value <= Offset() then 0
          else hi.value - Offset();
      if from <= to then entries[from..to] else []
    }
  }

  const EMPTY_LOG := Log(None, [])

  datatype Op = AppendOp(es: seq<Entry>) | TruncateOp(id: LogId) | PurgeOp(id: LogId)

  /** Raft's storage call order: appends continue the log, truncation stays above the
      purge point, the purge point never moves back. */
  predicate Legal(l: Log, op: Op) {
    match op
    case AppendOp(es) => forall i :: 0 <= i < |es| ==> es[i].logId.index == l.End() + i
    case TruncateOp(id) => id.index >= l.Offset()
    case PurgeOp(id) => id.index + 1 >= l.Offset()
  }

  function LogStep(l: Log, op: Op): Log {
    match op
    case AppendOp(es) => l.(entries := l.entries + es)
    case TruncateOp(id) =>
      if id.index >= l.End() then l
      else l.(entries := l.entries[..if id.index <= l.Offset() then 0 else id.index - l.Offset()])
    case PurgeOp(id) =>
      Log(Some(id), if id.index < l.Offset() then l.entries
                    else if id.index >= l.End() then [] else l.entries[id.index + 1 - l.Offset()..])
  }

  function TableStep(t: Table, op: Op): Table {
    match op
    case AppendOp(es) => t.(rows := Insert(t.rows, es))
    case TruncateOp(id) => t.(rows := Below(t.rows, id.index))
    case PurgeOp(id) => Table(Above(t.rows, id.index), Some(id))
  }

  function RunLog(ops: seq<Op>): Log {
    if ops == [] then EMPTY_LOG else LogStep(RunLog(ops[..|ops| - 1]), ops[|ops| - 1])
  }

  function RunTable(ops: seq<Op>): Table {
    if ops == [] then EMPTY_TABLE else TableStep(RunTable(ops[..|ops| - 1]), ops[|ops| - 1])
  }

  predicate LegalRun(ops: seq<Op>) {
    ops == [] || (LegalRun(ops[..|ops| - 1]) && Legal(RunLog(ops[..|ops| - 1]), ops[|ops| - 1]))
  }

  /** The keys are exactly the indices of the log, and each entry sits under its own. */
  ghost predicate Represents(t: Table, l: Log) {
    && t.purged == l.purged
    && (forall k :: k in t.rows <==> l.Offset() <= k < l.End())
    && (forall k :: k in t.rows ==> t.rows[k] == l.entries[k - l.Offset()] && t.rows[k].logId.index == k)
  }

  lemma {:induction false} InsertContents(rows: map<nat, Entry>, es: seq<Entry>, base: nat)
    requires forall i :: 0 <= i < |es| ==> es[i].logId.index == base + i
    ensures forall k :: k in Insert(rows, es) <==> k in rows || base <= k < base + |es|
    ensures forall k :: k in Insert(rows, es) ==>
              Insert(rows, es)[k] == if base <= k < base + |es| then es[k - base] else rows[k]
    decreases es
  {
    if es != [] {
      InsertContents(rows, es[..|es| - 1], base);
    }
  }

  lemma AppendRepresents(t: Table, l: Log, es: seq<Entry>)
    requires Represents(t, l) && Legal(l, AppendOp(es))
    ensures Represents(TableStep(t, AppendOp(es)), LogStep(l, AppendOp(es)))
  {
    hide Insert;
    InsertContents(t.rows, es, l.End());
  }

  lemma TruncateRepresents(t: Table, l: Log, id: LogId)
    requires Represents(t, l) && Legal(l, TruncateOp(id))
    ensures Represents(TableStep(t, TruncateOp(id)), LogStep(l, TruncateOp(id)))
  {}

  lemma PurgeRepresents(t: Table, l: Log, id: LogId)
    requires Represents(t, l) && Legal(l, PurgeOp(id))
    ensures Represents(TableStep(t, PurgeOp(id)), LogStep(l, PurgeOp(id)))
  {}

  lemma StepRepresents(t: Table, l: Log, op: Op)
    requires Represents(t, l) && Legal(l, op)
    ensures Represents(TableStep(t, op), LogStep(l, op))
  {
    hide Represents, TableStep, LogStep;
    match op
    case AppendOp(es) => AppendRepresents(t, l, es);
    case TruncateOp(id) => TruncateRepresents(t, l, id);
    case PurgeOp(id) => PurgeRepresents(t, l, id);
  }

  /** Every legal run of the table represents the same run of the abstract log. */
  lemma {:induction false} TableRefinesLog(ops: seq<Op>)
    requires LegalRun(ops)
    ensures Represents(RunTable(ops), RunLog(ops))
    decreases ops
  {
    if ops != [] {
      TableRefinesLog(ops[..|ops| - 1]);
      StepRepresents(RunTable(ops[..|ops| - 1]), RunLog(ops[..|ops| - 1]), ops[|ops| - 1]);
    }
  }

  /** What `get_log_state` reports is the end of the log, even when a purge has passed
      its last entry. */
  lemma LogStateIsEnd(ops: seq<Op>, last: Option<LogId>)
    requires LegalRun(ops)
    requires RunTable(ops).rows == map[] ==> last == RunTable(ops).purged
    requires RunTable(ops).rows != map[] ==>
               exists k :: (k in RunTable(ops).rows && last == Some(RunTable(ops).rows[k].logId)
                                              && forall j :: j in RunTable(ops).rows ==> j <= k)
    ensures last == RunLog(ops).LastId()
    ensures last.Some? ==> last.value.index + 1 == RunLog(ops).End()
  {
    TableRefinesLog(ops);
    EndOfTable(RunTable(ops), RunLog(ops), last);
  }

  lemma EndOfTable(t: Table, l: Log, last: Option<LogId>)
    requires Represents(t, l)
    requires t.rows == map[] ==> last == t.purged
    requires t.rows != map[] ==>
               exists k :: (k in t.rows && last == Some(t.rows[k].logId) && forall j :: j in t.rows ==> j <= k)
    ensures last == l.LastId() && (last.Some? ==> last.value.index + 1 == l.End())
  {
    if l.entries == [] {
      assert forall k :: k !in t.rows;
      assert t.rows == map[];
    } else {
      var end: nat := l.Offset() + (|l.entries| - 1);
      assert end in t.rows && t.rows[end] == l.entries[|l.entries| - 1];
    }
  }

  /** An ascending list of exactly the numbers from `lo` to `hi` counts them off. */
  lemma {:induction false} AscendingRange(ks: seq<nat>, lo: nat, hi: nat)
    requires lo <= hi
    requires forall k :: k in ks <==> lo <= k < hi
    requires forall i, j :: 0 <= i < j < |ks| ==> ks[i] < ks[j]
    ensures |ks| == hi - lo && forall i :: 0 <= i < |ks| ==> ks[i] == lo + i
    decreases hi
  {
    assert ks != [] ==> ks[0] in ks;
    if lo < hi {
      var n := |ks| - 1;
      assert hi - 1 in ks;
      var p :| 0 <= p < |ks| && ks[p] == hi - 1;
      assert ks[n] in ks;
      assert p == n;
      forall k ensures k in ks[..n] <==> lo <= k < hi - 1 {
        if k in ks[..n] {
          var q :| 0 <= q < n && ks[q] == k;
          assert k in ks && ks[q] < ks[n];
        }
        if lo <= k < hi - 1 {
          assert k in ks;
          var q :| 0 <= q < |ks| && ks[q] == k;
          assert ks[..n][q] == k;
        }
      }
      AscendingRange(ks[..n], lo, hi - 1);
      assert forall i :: 0 <= i < n ==> ks[..n][i] == ks[i];
    }
  }

  /** A range read returns exactly the slice of the log, in order. */
  lemma ReadIsSlice(ops: seq<Op>, lo: nat, hi: Option<nat>, ks: seq<nat>)
    requires LegalRun(ops) && IsRange(RunTable(ops).rows, lo, hi, ks)
    ensures Rows(RunTable(ops).rows, ks) == RunLog(ops).Slice(lo, hi)
  {
    TableRefinesLog(ops);
    hide TableStep, LogStep;
    RangeIsSlice(RunTable(ops), RunLog(ops), lo, hi, ks);
  }

  /** The bounds of a range, cut to the entries there are. */
  function From(l: Log, lo: nat): nat { if lo <= l.Offset() then l.Offset() else lo }

  function To(l: Log, hi: Option<nat>): nat { if hi.None? || hi.value >= l.End() then l.End() else hi.value }

  lemma SliceFrom(l: Log, lo: nat, hi: Option<nat>)
    ensures
      var from, to := From(l, lo), To(l, hi);
      if from <= to then
        && |l.Slice(lo, hi)| == to - from
        && forall i :: 0 <= i < to - from ==> l.Slice(lo, hi)[i] == l.entries[from - l.Offset() + i]
      else l.Slice(lo, hi) == []
  {}

  lemma RangeIsSlice(t: Table, l: Log, lo: nat, hi: Option<nat>, ks: seq<nat>)
    requires Represents(t, l) && IsRange(t.rows, lo, hi, ks)
    ensures Rows(t.rows, ks) == l.Slice(lo, hi)
  {
    assert ks != [] ==> ks[0] in ks;
    var from, to := From(l, lo), To(l, hi);
    SliceFrom(l, lo, hi);
    assert forall k :: k in ks <==> from <= k < to;
    hide IsRange, From, To;
    if from <= to {
      AscendingRange(ks, from, to);
      assert forall i :: 0 <= i < |ks| ==> ks[i] in ks;
    }
  }
}
