/**
 The fanout as it runs: at least two workers take files from the channel, each
 writes to both groups, all share one table of patches for each group, and their
 reports are merged. The result is still that of two independent imports.
 */
module ParallelFanout {
  import opened Wrappers
  import opened Sequences
  import opened ImportOutput
  import opened Accounts
  import opened Channels
  import opened SinkRows
  import opened Fanout
  import opened Parallel

  // ------------------------------------------------------------- any division

  /** The parts above the watermark of what each worker took. */
  function AboveEach(minimum: Option<nat>, ws: seq<seq<AppendVec>>): seq<seq<AppendVec>> {
    if ws == [] then [] else [Above(minimum, ws[0])] + AboveEach(minimum, ws[1..])
  }

  lemma {:induction false} AboveConcat(minimum: Option<nat>, xs: seq<AppendVec>, ys: seq<AppendVec>)
    ensures Above(minimum, xs + ys) == Above(minimum, xs) + Above(minimum, ys)
  {
    hide IfAbove;
    if xs == [] {
      assert xs + ys == ys;
    } else {
      assert (xs + ys)[1..] == xs[1..] + ys;
      AboveConcat(minimum, xs[1..], ys);
    }
  }

  lemma {:induction false} FlattenAbove(minimum: Option<nat>, ws: seq<seq<AppendVec>>)
    ensures Flatten(AboveEach(minimum, ws)) == Above(minimum, Flatten(ws))
  {
    hide Above;
    if ws == [] {
      AboveNothing(minimum);
    } else {
      FlattenAbove(minimum, ws[1..]);
      AboveConcat(minimum, ws[0], Flatten(ws[1..]));
    }
  }

  function AboveBag(minimum: Option<nat>): AppendVec -> multiset<AppendVec> { (av: AppendVec) => multiset(IfAbove(minimum, av)) }

  lemma {:induction false} AboveIsBag(minimum: Option<nat>, stream: seq<AppendVec>)
    ensures multiset(Above(minimum, stream)) == RowsOf(AboveBag(minimum), stream)
  {
    hide IfAbove;
    if stream != [] {
      AboveIsBag(minimum, stream[1..]);
    }
  }

  lemma AbovePermutation(minimum: Option<nat>, xs: seq<AppendVec>, ys: seq<AppendVec>)
    requires multiset(xs) == multiset(ys)
    ensures multiset(Above(minimum, xs)) == multiset(Above(minimum, ys))
  {
    hide Above, RowsOf, AboveBag;
    AboveIsBag(minimum, xs);
    AboveIsBag(minimum, ys);
    RowsOfFewer(AboveBag(minimum), xs, ys);
  }

  lemma {:induction false} FanoutStreamConcat(cfg: Config, xs: seq<AppendVec>, ys: seq<AppendVec>)
    ensures FanoutStream(cfg, xs + ys) == FanoutStream(cfg, xs) + FanoutStream(cfg, ys)
    decreases |ys|
  {
    hide FanoutEffects;
    if ys == [] {
      assert xs + ys == xs;
    } else {
      var n := |ys| - 1;
      FanoutStreamConcat(cfg, xs, ys[..n]);
      assert (xs + ys)[..|xs + ys| - 1] == xs + ys[..n];
    }
  }

  lemma EmptyFanout(cfg: Config)
    ensures FanoutStream(cfg, []) == []
  {
  }

  lemma FanoutStreamOne(cfg: Config, av: AppendVec)
    ensures FanoutStream(cfg, [av]) == FanoutEffects(cfg, av)
  {
    assert [av][..0] == [];
  }

  function EffectBag(cfg: Config): AppendVec -> multiset<Effect> { (av: AppendVec) => multiset(FanoutEffects(cfg, av)) }

  lemma {:induction false} FanoutStreamIsBag(cfg: Config, stream: seq<AppendVec>)
    ensures multiset(FanoutStream(cfg, stream)) == RowsOf(EffectBag(cfg), stream)
  {
    hide FanoutEffects, FanoutStream;
    if stream == [] {
      EmptyFanout(cfg);
    } else {
      FanoutStreamIsBag(cfg, stream[1..]);
      assert stream == [stream[0]] + stream[1..];
      FanoutStreamConcat(cfg, [stream[0]], stream[1..]);
      FanoutStreamOne(cfg, stream[0]);
    }
  }

  /** Staging's total does not depend on the order of the files. */
  lemma FanoutPermutation(cfg: Config, xs: seq<AppendVec>, ys: seq<AppendVec>)
    requires multiset(xs) == multiset(ys)
    ensures Total(FanoutStream(cfg, xs)) == Total(FanoutStream(cfg, ys))
  {
    hide Total, RowsOf, EffectBag, FanoutStream;
    FanoutStreamIsBag(cfg, xs);
    FanoutStreamIsBag(cfg, ys);
    RowsOfFewer(EffectBag(cfg), xs, ys);
    TotalPermutation(FanoutStream(cfg, xs), FanoutStream(cfg, ys));
  }

  /** The workers' parts for staging, merged one after the other. */
  function MergeStaging(cfg: Config, ws: seq<seq<AppendVec>>): Output {
    if ws == [] then Empty else Merge(Total(FanoutStream(cfg, ws[0])), MergeStaging(cfg, ws[1..]))
  }

  lemma {:induction false} MergedStaging(cfg: Config, ws: seq<seq<AppendVec>>)
    ensures MergeStaging(cfg, ws) == Total(FanoutStream(cfg, Flatten(ws)))
  {
    hide Merge, Total, FanoutStream;
    if ws == [] {
      EmptyFanout(cfg);
      EmptyTotal();
    } else {
      MergedStaging(cfg, ws[1..]);
      FanoutStreamConcat(cfg, ws[0], Flatten(ws[1..]));
      TotalConcat(FanoutStream(cfg, ws[0]), FanoutStream(cfg, Flatten(ws[1..])));
    }
  }

  function StagingConfig(slot: nat, hot: set<Pubkey>): Config { Config(Full, slot, hot, true) }
  function ActiveConfig(slot: nat, hot: set<Pubkey>): Config { Config(Incremental, slot, hot, false) }

  /** A file that counts only in a standalone full import. */
  predicate IsEmptyFile(av: AppendVec) { av.len == 0 && av.accounts == [] }

  /** Staging as a standalone full import has it; active as a standalone incremental import of the tail has it. */
  ghost predicate AreTwoImports(slot: nat, stagingHot: set<Pubkey>, activeHot: set<Pubkey>, resume: nat, stream: seq<AppendVec>, staging: Output, active: Output) {
    var full := ImportOf(StagingConfig(slot, stagingHot), stream);
    && staging == full.(counts := staging.counts)
    && (staging == full <==> forall av <- stream :: !IsEmptyFile(av))
    && active == Uncounted(ImportOf(ActiveConfig(slot, activeHot).(counted := true), Above(Some(resume), stream)))
  }

  /**
   For any assignment of files to fanout workers the merged outputs are those of
   two standalone imports, and so are the two tables of patches the workers share,
   whatever the interleaving of their updates to each.
   */
  lemma ParallelFanoutIsTwoImports(slot: nat, stagingHot: set<Pubkey>, activeHot: set<Pubkey>, resume: nat,
      stream: seq<AppendVec>, ws: seq<seq<AppendVec>>, toStaging: seq<Effect>, toActive: seq<Effect>)
    requires multiset(Flatten(ws)) == multiset(stream)
    requires multiset(toStaging) == multiset(FanoutStream(StagingConfig(slot, stagingHot), Flatten(ws)))
    requires multiset(toActive) == multiset(StreamEffects(ActiveConfig(slot, activeHot), Above(Some(resume), Flatten(ws))))
    ensures var staging := MergeStaging(StagingConfig(slot, stagingHot), ws);
      var active := MergeAll(ActiveConfig(slot, activeHot), AboveEach(Some(resume), ws));
      && AreTwoImports(slot, stagingHot, activeHot, resume, stream, staging, active)
      && Total(toStaging).patches == staging.patches && Total(toActive).patches == active.patches
  {
    hide Total, FanoutStream, StreamEffects, Above, MergeAll, MergeStaging, AboveEach;
    var s, a := StagingConfig(slot, stagingHot), ActiveConfig(slot, activeHot);
    MergedStaging(s, ws);
    FanoutPermutation(s, Flatten(ws), stream);
    StagingEqualsFullImport(s, stream);
    FlattenAbove(Some(resume), ws);
    AbovePermutation(Some(resume), Flatten(ws), stream);
    ParallelEqualsSequential(a, Above(Some(resume), stream), AboveEach(Some(resume), ws), toActive);
    ActiveEqualsIncrementalImport(a.(counted := true), Above(Some(resume), stream));
    assert a.(counted := true).(counted := false) == a;
    TotalPermutation(toStaging, FanoutStream(s, Flatten(ws)));
  }

  lemma {:induction false} FlattenSnoc(ws: seq<seq<AppendVec>>, w: seq<AppendVec>)
    ensures Flatten(ws + [w]) == Flatten(ws) + w
  {
    if ws == [] {
      assert [w][1..] == [] && ws + [w] == [w];
    } else {
      assert (ws + [w])[1..] == ws[1..] + [w];
      FlattenSnoc(ws[1..], w);
    }
  }

  /** Every worker's part, and the merge of the reports in the order in which the workers are joined. */
  method ImportFullSnapshotFanout(slot: nat, ws: seq<seq<AppendVec>>, resume: nat, activeHot: set<Pubkey>, stagingHot: set<Pubkey>, ghost stream: seq<AppendVec>)
    returns (staging: Output, active: Output)
    requires multiset(Flatten(ws)) == multiset(stream)
    ensures AreTwoImports(slot, stagingHot, activeHot, resume, stream, staging, active)
  {
    hide Total, FanoutStream, StreamEffects, Above, MergeAll, MergeStaging, AboveEach, Merge, AreTwoImports;
    ghost var s, a := StagingConfig(slot, stagingHot), ActiveConfig(slot, activeHot);
    staging, active := Empty, Empty;
    NothingYet(s, a, resume);
    var k := 0;
    while k < |ws|
      invariant k <= |ws|
      invariant staging == Total(FanoutStream(s, Flatten(ws[..k])))
      invariant active == ImportOf(a, Above(Some(resume), Flatten(ws[..k])))
    {
      var worker := new FullFanoutWorker(slot, resume, activeHot, stagingHot);
      worker.ImportAll(ws[k]);
      staging, active := Merge(staging, worker.StagingResult()), Merge(active, worker.ActiveResult());
      assert ws[..k + 1] == ws[..k] + [ws[k]];
      FlattenSnoc(ws[..k], ws[k]);
      FanoutStreamConcat(s, Flatten(ws[..k]), ws[k]);
      TotalConcat(FanoutStream(s, Flatten(ws[..k])), FanoutStream(s, ws[k]));
      AboveConcat(Some(resume), Flatten(ws[..k]), ws[k]);
      ImportConcat(a, Above(Some(resume), Flatten(ws[..k])), Above(Some(resume), ws[k]));
      k := k + 1;
    }
    assert ws[..k] == ws;
    MergedStaging(s, ws);
    FlattenAbove(Some(resume), ws);
    MergedWorkers(a, AboveEach(Some(resume), ws));
    ParallelFanoutIsTwoImports(slot, stagingHot, activeHot, resume, stream, ws,
                               FanoutStream(s, Flatten(ws)), StreamEffects(a, Above(Some(resume), Flatten(ws))));
  }

  lemma NothingYet(s: Config, a: Config, resume: nat)
    ensures Total(FanoutStream(s, Flatten([]))) == Empty && ImportOf(a, Above(Some(resume), Flatten([]))) == Empty
  {
  }

  // --------------------------------------------------- over runs of the channel

  datatype GroupRow = ToStaging(row: SinkRow) | ToActive(row: SinkRow)

  function StagingRows(e: Effect): multiset<GroupRow> {
    match e
    case WriteAccount(row) => multiset{ToStaging(ToAccounts(row))}
    case WriteToken(row) => multiset{ToStaging(ToTokens(row))}
    case WriteMint(row) => multiset{ToStaging(ToMints(row))}
    case _ => multiset{}
  }

  function ActiveRows(e: Effect): multiset<GroupRow> {
    match e
    case WriteAccount(row) => multiset{ToActive(ToAccounts(row))}
    case WriteToken(row) => multiset{ToActive(ToTokens(row))}
    case WriteMint(row) => multiset{ToActive(ToMints(row))}
    case _ => multiset{}
  }

  /** The bag holds these rows for each of the groups. */
  ghost predicate Sides(bag: multiset<GroupRow>, staging: multiset<SinkRow>, active: multiset<SinkRow>) {
    (forall r :: bag[ToStaging(r)] == staging[r]) && (forall r :: bag[ToActive(r)] == active[r])
  }

  lemma SidesBoth(b: multiset<GroupRow>, c: multiset<GroupRow>, s: multiset<SinkRow>, t: multiset<SinkRow>, a: multiset<SinkRow>, d: multiset<SinkRow>)
    requires Sides(b, s, a) && Sides(c, t, d)
    ensures Sides(b + c, s + t, a + d)
  {
  }

  lemma OneStagingSide(e: Effect)
    ensures Sides(StagingRows(e), EffectRows(e), multiset{})
  {
  }

  lemma OneActiveSide(e: Effect)
    ensures Sides(ActiveRows(e), multiset{}, EffectRows(e))
  {
  }

  lemma NoSides()
    ensures Sides(multiset{}, multiset{}, multiset{})
  {
  }

  const NoSinkRows: multiset<SinkRow> := multiset{}

  lemma {:induction false} StagingSides(es: seq<Effect>)
    ensures Sides(RowsOf(StagingRows, es), RowsOf(EffectRows, es), NoSinkRows)
  {
    hide Sides, StagingRows, ActiveRows, EffectRows;
    NoSides();
    if es != [] {
      StagingSides(es[1..]);
      OneStagingSide(es[0]);
      SidesBoth(StagingRows(es[0]), RowsOf(StagingRows, es[1..]), EffectRows(es[0]), RowsOf(EffectRows, es[1..]), NoSinkRows, NoSinkRows);
      assert NoSinkRows + NoSinkRows == NoSinkRows;
    }
  }

  lemma {:induction false} ActiveSides(es: seq<Effect>)
    ensures Sides(RowsOf(ActiveRows, es), NoSinkRows, RowsOf(EffectRows, es))
  {
    hide Sides, StagingRows, ActiveRows, EffectRows;
    NoSides();
    if es != [] {
      ActiveSides(es[1..]);
      OneActiveSide(es[0]);
      SidesBoth(ActiveRows(es[0]), RowsOf(ActiveRows, es[1..]), NoSinkRows, NoSinkRows, EffectRows(es[0]), RowsOf(EffectRows, es[1..]));
      assert NoSinkRows + NoSinkRows == NoSinkRows;
    }
  }

  /** What a fanout worker writes for one file, to both groups. */
  function FanoutRows(s: Config, a: Config, resume: nat): AppendVec -> multiset<GroupRow> {
    (av: AppendVec) => RowsOf(StagingRows, FanoutEffects(s, av)) + RowsOf(ActiveRows, StreamEffects(a, IfAbove(Some(resume), av)))
  }

  lemma FileSides(s: Config, a: Config, resume: nat, av: AppendVec)
    ensures Sides(FanoutRows(s, a, resume)(av), RowsOf(EffectRows, FanoutEffects(s, av)), RowsOf(EffectRows, StreamEffects(a, IfAbove(Some(resume), av))))
  {
    hide RowsOf, Sides, FanoutEffects, StreamEffects, IfAbove;
    var es, fs := FanoutEffects(s, av), StreamEffects(a, IfAbove(Some(resume), av));
    StagingSides(es);
    ActiveSides(fs);
    SidesBoth(RowsOf(StagingRows, es), RowsOf(ActiveRows, fs), RowsOf(EffectRows, es), multiset{}, multiset{}, RowsOf(EffectRows, fs));
    var written, tail := RowsOf(EffectRows, es), RowsOf(EffectRows, fs);
    assert written + multiset{} == written && multiset{} + tail == tail;
  }

  /** One file in front of others adds its rows to either group. */
  lemma FrontRows(s: Config, a: Config, resume: nat, av: AppendVec, rest: seq<AppendVec>)
    ensures RowsOf(EffectRows, FanoutStream(s, [av] + rest)) == RowsOf(EffectRows, FanoutEffects(s, av)) + RowsOf(EffectRows, FanoutStream(s, rest))
    ensures RowsOf(EffectRows, StreamEffects(a, Above(Some(resume), [av] + rest)))
      == RowsOf(EffectRows, StreamEffects(a, IfAbove(Some(resume), av))) + RowsOf(EffectRows, StreamEffects(a, Above(Some(resume), rest)))
  {
    hide FanoutEffects, EffectRows, FanoutStream, StreamEffects, IfAbove, RowsOf;
    FanoutStreamConcat(s, [av], rest);
    FanoutStreamOne(s, av);
    RowsOfConcat(EffectRows, FanoutEffects(s, av), FanoutStream(s, rest));
    var head, tail := IfAbove(Some(resume), av), Above(Some(resume), rest);
    assert ([av] + rest)[1..] == rest;
    StreamEffectsConcat(a, head, tail);
    RowsOfConcat(EffectRows, StreamEffects(a, head), StreamEffects(a, tail));
  }

  lemma {:induction false} StreamSides(s: Config, a: Config, resume: nat, stream: seq<AppendVec>)
    ensures Sides(RowsOf(FanoutRows(s, a, resume), stream), RowsOf(EffectRows, FanoutStream(s, stream)),
                  RowsOf(EffectRows, StreamEffects(a, Above(Some(resume), stream))))
  {
    hide Sides, FanoutEffects, EffectRows, FanoutRows, FanoutStream, StreamEffects, IfAbove, Above;
    if stream == [] {
      NoRowsOfNothing(s, a, resume);
      NoSides();
    } else {
      var av, rest := stream[0], stream[1..];
      StreamSides(s, a, resume, rest);
      FileSides(s, a, resume, av);
      FrontRows(s, a, resume, av, rest);
      assert stream == [av] + rest;
      SidesBoth(FanoutRows(s, a, resume)(av), RowsOf(FanoutRows(s, a, resume), rest),
                RowsOf(EffectRows, FanoutEffects(s, av)), RowsOf(EffectRows, FanoutStream(s, rest)),
                RowsOf(EffectRows, StreamEffects(a, IfAbove(Some(resume), av))), RowsOf(EffectRows, StreamEffects(a, Above(Some(resume), rest))));
    }
  }

  lemma NoRowsOfNothing(s: Config, a: Config, resume: nat)
    ensures RowsOf(EffectRows, FanoutStream(s, [])) == multiset{} && RowsOf(EffectRows, StreamEffects(a, Above(Some(resume), []))) == multiset{}
  {
  }

  /** The rows of the two standalone imports, each in its own group and each as often. */
  ghost predicate HoldsBothImports(bag: multiset<GroupRow>, staging: Rows, active: Rows) {
    exists s, a :: Sides(bag, s, a) && Holds(s, staging) && Holds(a, active)
  }

  lemma StreamHolds(slot: nat, stagingHot: set<Pubkey>, activeHot: set<Pubkey>, resume: nat, stream: seq<AppendVec>)
    ensures HoldsBothImports(RowsOf(FanoutRows(StagingConfig(slot, stagingHot), ActiveConfig(slot, activeHot), resume), stream),
      ImportOf(StagingConfig(slot, stagingHot), stream).rows, ImportOf(ActiveConfig(slot, activeHot), Above(Some(resume), stream)).rows)
  {
    hide RowsOf, Sides, Holds, FanoutStream, StreamEffects, Above, Total, FanoutRows;
    var s, a := StagingConfig(slot, stagingHot), ActiveConfig(slot, activeHot);
    StreamSides(s, a, resume, stream);
    EffectsHold(FanoutStream(s, stream));
    EffectsHold(StreamEffects(a, Above(Some(resume), stream)));
    StagingEqualsFullImport(s, stream);
  }

  /**
   The fanout over any run of its channel, with at least two workers: on success
   the merged reports are those of two standalone imports, and what the server has
   accepted for each group is that import's rows, each exactly once.
   */
  lemma SuccessfulFanoutIsTwoImports(slot: nat, stagingHot: set<Pubkey>, activeHot: set<Pubkey>, resume: nat,
      workers: nat, entries: seq<Option<AppendVec>>, events: seq<ChannelEvent<GroupRow>>)
    ensures var (s, a, stream) := (StagingConfig(slot, stagingHot), ActiveConfig(slot, activeHot), Readable(entries));
      var rows, n := FanoutRows(s, a, resume), Max(workers, 2);
      var c := ChannelRun(n, rows, Start(n, entries), events);
      && CommittedRows(c.workers) <= RowsOf(rows, stream)
      && (ReturnsOk(c) ==>
            && AreTwoImports(slot, stagingHot, activeHot, resume, stream, MergeStaging(s, Assignment(c.workers)),
                             MergeAll(a, AboveEach(Some(resume), Assignment(c.workers))))
            && HoldsBothImports(CommittedRows(c.workers), ImportOf(s, stream).rows, ImportOf(a, Above(Some(resume), stream)).rows))
  {
    hide ChannelRun, MergeAll, MergeStaging, AboveEach, ImportOf, Assignment, RowsOf, FanoutRows, CommittedRows, HoldsBothImports, AreTwoImports, Above, FanoutStream;
    var s, a, stream := StagingConfig(slot, stagingHot), ActiveConfig(slot, activeHot), Readable(entries);
    var rows, n := FanoutRows(s, a, resume), Max(workers, 2);
    ExactlyOnceOnSuccess(n, rows, n, entries, events);
    var c := ChannelRun(n, rows, Start(n, entries), events);
    StreamHolds(slot, stagingHot, activeHot, resume, stream);
    if ReturnsOk(c) {
      var ws := Assignment(c.workers);
      ParallelFanoutIsTwoImports(slot, stagingHot, activeHot, resume, stream, ws,
                                 FanoutStream(s, Flatten(ws)), StreamEffects(a, Above(Some(resume), Flatten(ws))));
    }
  }
}
