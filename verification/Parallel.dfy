/**
 The parallel import: AppendVecs handed to workers through a bounded channel,
 worker statistics merged at the end. On success it is the sequential import.
 */
module Parallel {
  import opened Wrappers
  import opened ImportOutput
  import opened Accounts
  import opened Channels
  import opened Sequences
  import opened SinkRows

  // ------------------------------------------------------ merging statistics

  /** What one worker reports; `Merge` folds another report into this one. */
  class ParallelWorkerStats {
    var closedTokenAccounts: map<Pubkey, nat>
    var affectedPairs: set<Pair>
    var counts: multiset<Counter>

    constructor (closes: map<Pubkey, nat>, pairs: set<Pair>, counts: multiset<Counter>)
      ensures closedTokenAccounts == closes && affectedPairs == pairs && this.counts == counts
    {
      closedTokenAccounts, affectedPairs, this.counts := closes, pairs, counts;
    }

    method Merge(other: ParallelWorkerStats)
      requires other != this
      modifies this
      ensures closedTokenAccounts == JoinMaps(Max, old(closedTokenAccounts), other.closedTokenAccounts)
      ensures affectedPairs == old(affectedPairs) + other.affectedPairs
      ensures counts == old(counts) + other.counts
    {
      counts := counts + other.counts;
      var left := other.closedTokenAccounts.Keys;
      while left != {}
        invariant left <= other.closedTokenAccounts.Keys
        invariant affectedPairs == old(affectedPairs) && counts == old(counts) + other.counts
        invariant closedTokenAccounts.Keys == old(closedTokenAccounts).Keys + (other.closedTokenAccounts.Keys - left)
        invariant forall k :: k in closedTokenAccounts ==>
          closedTokenAccounts[k] ==
            if k in left || k !in other.closedTokenAccounts then old(closedTokenAccounts)[k]
            else JoinMaps(Max, old(closedTokenAccounts), other.closedTokenAccounts)[k]
      {
        var pubkey :| pubkey in left;
        var version := other.closedTokenAccounts[pubkey];
        if pubkey !in closedTokenAccounts || version > closedTokenAccounts[pubkey] {
          closedTokenAccounts := closedTokenAccounts[pubkey := version];
        }
        left := left - {pubkey};
      }
      affectedPairs := affectedPairs + other.affectedPairs;
    }
  }

  /** Worker outputs merged one after the other. */
  function MergeAll(cfg: Config, ws: seq<seq<AppendVec>>): Output {
    if ws == [] then Empty else ImportOutput.Merge(ImportOf(cfg, ws[0]), MergeAll(cfg, ws[1..]))
  }

  lemma ImportConcat(cfg: Config, xs: seq<AppendVec>, ys: seq<AppendVec>)
    ensures ImportOf(cfg, xs + ys) == ImportOutput.Merge(ImportOf(cfg, xs), ImportOf(cfg, ys))
  {
    hide Total, StreamEffects;
    StreamEffectsConcat(cfg, xs, ys);
    TotalConcat(StreamEffects(cfg, xs), StreamEffects(cfg, ys));
  }

  lemma {:induction false} MergedWorkers(cfg: Config, ws: seq<seq<AppendVec>>)
    ensures MergeAll(cfg, ws) == ImportOf(cfg, Flatten(ws))
  {
    hide ImportOutput.Merge;
    if ws != [] {
      MergedWorkers(cfg, ws[1..]);
      ImportConcat(cfg, ws[0], Flatten(ws[1..]));
    }
  }

  /** The order in which AppendVecs are imported does not matter. */
  lemma {:induction false} ImportPermutation(cfg: Config, xs: seq<AppendVec>, ys: seq<AppendVec>)
    requires multiset(xs) == multiset(ys)
    ensures ImportOf(cfg, xs) == ImportOf(cfg, ys)
    decreases |xs|
  {
    hide ImportOutput.Merge, ImportOf;
    if xs == [] {
      OnlyEmpty(ys);
    } else {
      var i := FindFirst(xs, ys);
      var x, before, after := xs[0], ys[..i], ys[i + 1..];
      assert xs == [x] + xs[1..];
      ImportPermutation(cfg, xs[1..], before + after);
      ImportConcat(cfg, [x], xs[1..]);
      ImportConcat(cfg, before, after);
      ImportConcat(cfg, before + [x], after);
      ImportConcat(cfg, before, [x]);
      MergeMonoid(ImportOf(cfg, before), ImportOf(cfg, [x]), Empty);
      MergeMonoid(ImportOf(cfg, [x]), ImportOf(cfg, before), ImportOf(cfg, after));
    }
  }

  /**
   For any assignment of AppendVecs to workers the merged outputs are those of
   the sequential import, and so is the patch table they share, whatever the
   interleaving of their updates to it.
   */
  lemma ParallelEqualsSequential(cfg: Config, stream: seq<AppendVec>, ws: seq<seq<AppendVec>>, interleaving: seq<Effect>)
    requires multiset(Flatten(ws)) == multiset(stream)
    requires multiset(interleaving) == multiset(StreamEffects(cfg, Flatten(ws)))
    ensures MergeAll(cfg, ws) == ImportOf(cfg, stream)
    ensures Total(interleaving).patches == ImportOf(cfg, stream).patches
  {
    hide Total, StreamEffects;
    MergedWorkers(cfg, ws);
    ImportPermutation(cfg, Flatten(ws), stream);
    TotalPermutation(interleaving, StreamEffects(cfg, Flatten(ws)));
  }

  /**
   A successful parallel import, over any run of the channel, is the sequential
   import: the merged reports are its report, and the rows that the server has
   accepted are its rows. A run that fails has committed none but those.
   */
  lemma SuccessfulImportIsSequential(cfg: Config, workers: nat, entries: seq<Option<AppendVec>>, events: seq<ChannelEvent<SinkRow>>)
    requires workers >= 1
    ensures var c := ChannelRun(workers, FileRows(cfg), Start(workers, entries), events);
      var sequential := ImportOf(cfg, Readable(entries));
      && CommittedRows(c.workers) <= RowsOf(FileRows(cfg), Readable(entries))
      && Holds(RowsOf(FileRows(cfg), Readable(entries)), sequential.rows)
      && (ReturnsOk(c) ==>
            && MergeAll(cfg, Assignment(c.workers)) == sequential
            && Holds(CommittedRows(c.workers), sequential.rows))
  {
    hide ChannelRun, MergeAll, ImportOf, Assignment, RowsOf, FileRows, CommittedRows, Holds;
    ExactlyOnceOnSuccess(workers, FileRows(cfg), workers, entries, events);
    FilesHold(cfg, Readable(entries));
    var ws := Assignment(ChannelRun(workers, FileRows(cfg), Start(workers, entries), events).workers);
    if ReturnsOk(ChannelRun(workers, FileRows(cfg), Start(workers, entries), events)) {
      ParallelEqualsSequential(cfg, Readable(entries), ws, StreamEffects(cfg, Flatten(ws)));
    }
  }
}
