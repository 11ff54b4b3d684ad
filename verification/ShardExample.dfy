/**
 A run of the sharded store from start to finish: a write, a handover between two groups, and the
 new owner serving it.
 */
module ShardExample {
  import opened ShardGroup
  import opened ShardSystem

  function Owners(k: nat): seq<int> { if k == 0 then [0] else if k == 1 then [1] else [2] }

  function Request(c: int, m: int): CommandArgs { CommandArgs("k", "v", Put, c, m) }

  const ENV := Env(1, {1, 2}, Owners, Request)
  const C0 := Config(0, [0])
  const C1 := Config(1, [1])
  const C2 := Config(2, [2])
  const KV: map<string, string> := map["k" := "v"]
  const OPS: Operations := map[0 := OperationInfo(0, CommandReply(OK, ""))]

  /** Group 1: fresh, serving, after the write, and waiting to be pulled. */
  const A0 := Group(1, C0, C0, [NewShard()], map[])
  const A1 := Group(1, C0, C1, [NewShard()], map[])
  const A2 := Group(1, C0, C1, [Shard(KV, SERVING)], OPS)
  const A3 := Group(1, C1, C2, [Shard(KV, BEPULLING)], OPS)

  /** Group 2: fresh, at the first configuration, pulling, and serving. */
  const B0 := Group(2, C0, C0, [NewShard()], map[])
  const B1 := Group(2, C0, C1, [NewShard()], map[])
  const B2 := Group(2, C1, C2, [Shard(map[], PULLING)], map[])
  const B3 := Group(2, C1, C2, [Shard(KV, GC)], OPS)

  const TASK := Task(2, 1, 2, [0])
  const REPLY := Reply(2, 1, ShardData(2, map[0 := KV], OPS))

  lemma {:induction false} HolderIs(k: nat, s: int)
    ensures Holder(ENV, k, s) == if s == 0 then Owners(k)[0] else 0
  {
    if k > 0 { HolderIs(k - 1, s); }
  }

  lemma EnvFine()
    ensures EnvOk(ENV)
  {
    forall k: nat, s ensures Holder(ENV, k, s) == if s == 0 then Owners(k)[0] else 0 { HolderIs(k, s); }
    hide Holder;
    forall k: nat, s ensures Returns(ENV, k, s) {}
  }

  lemma GroupSteps()
    ensures ApplyConfiguration(A0, C1) == A1 && ApplyConfiguration(A2, C2) == A3
    ensures ApplyConfiguration(B0, C1) == B1 && ApplyConfiguration(B1, C2) == B2
    ensures AllServing(A0) && AllServing(A2) && AllServing(B0) && AllServing(B1)
  {
    assert ApplyConfiguration(A0, C1).shards == A1.shards;
    assert ApplyConfiguration(A2, C2).shards == A3.shards;
    assert ApplyConfiguration(B0, C1).shards == B1.shards;
    assert ApplyConfiguration(B1, C2).shards == B2.shards;
  }

  lemma WriteStep()
    ensures ApplyOperation(A1, Request(0, 0)).0 == A2 && Takes(A1, Request(0, 0))
  {
    assert Key2Shard("k", 1) == 0;
    assert CanServer(A1, 0);
    assert ApplyOperation(A1, Request(0, 0)).0.shards == A2.shards;
  }

  lemma MoveSteps()
    ensures Answer(A3, 2, [0]) == REPLY.data
    ensures ApplyInsert(B2, REPLY.data, [0]) == B3
  {
    assert Answer(A3, 2, [0]).shards == map[0 := KV];
    var s1 := B2.shards[0 := Shard(map[] + KV, GC)];
    assert map[] + KV == KV;
    assert [0][1..] == [];
    assert InsertLoop(B2.shards, REPLY.data.shards, [0]) == InsertLoop(s1, REPLY.data.shards, []);
    assert s1 == B3.shards;
    assert MergeOps(map[], OPS) == OPS;
  }

  function At(a: Group, b: Group, proposals: set<(int, Config)>, pulls: set<Task>, replies: set<Reply>,
              store: map<string, string>, done: set<(int, int)>): System {
    System(map[1 := a, 2 := b], proposals, pulls, replies, {}, store, done)
  }

  lemma AtShaped(a: Group, b: Group, proposals: set<(int, Config)>, pulls: set<Task>, replies: set<Reply>,
                 store: map<string, string>, done: set<(int, int)>)
    requires a.Sized(1) && b.Sized(1) && proposals <= {(1, C1), (1, C2), (2, C1), (2, C2)} && pulls <= {TASK}
             && replies <= {REPLY}
    ensures Shaped(ENV, At(a, b, proposals, pulls, replies, store, done))
  {
  }

  lemma ProposeStep(y: System, g: int, config: Config)
    requires EnvOk(ENV) && Shaped(ENV, y) && g in {1, 2} && AllServing(y.groups[g])
             && config == ConfigAt(ENV, y.groups[g].current.num + 1)
    ensures Next(ENV, y, ProposeConfig(g), y.(proposals := y.proposals + {(g, config)}))
  {
  }

  lemma ConfigStep(y: System, g: int, config: Config, grp: Group)
    requires EnvOk(ENV) && Shaped(ENV, y) && (g, config) in y.proposals
             && grp == ApplyConfiguration(y.groups[g], config)
    ensures Next(ENV, y, CommitConfig(g, config), y.(groups := y.groups[g := grp]))
  {
  }

  lemma StartRun(y: System)
    requires y == At(A0, B0, {}, {}, {}, map[], {})
    ensures Run(ENV, [y], [])
  {
    assert ConfigAt(ENV, 0) == C0;
    assert seq(1, _ => NewShard()) == [NewShard()];
    var groups := map g | g in ENV.gids :: Group(g, ConfigAt(ENV, 0), ConfigAt(ENV, 0),
                                                 seq(ENV.nShards, _ => NewShard()), map[]);
    assert y.groups == groups;
  }

  lemma Grow(ys: seq<System>, acts: seq<Action>, a: Action, y: System)
    requires Run(ENV, ys, acts) && Next(ENV, ys[|ys| - 1], a, y)
    ensures Run(ENV, ys + [y], acts + [a])
  {
    hide Next, IsInit;
    var ys', acts' := ys + [y], acts + [a];
    forall i | 0 <= i < |acts'| ensures Next(ENV, ys'[i], acts'[i], ys'[i + 1]) {}
  }

  /** Group 1 writes, stops serving at the second configuration, and group 2 serves what was written. */
  lemma Handover() returns (ys: seq<System>, acts: seq<Action>)
    ensures EnvOk(ENV) && Run(ENV, ys, acts)
    ensures |ys| == 13
    ensures var first, last := ys[3], ys[12];
            && Shaped(ENV, first) && Shaped(ENV, last)
            && CanServer(first.groups[1], 0) && first.groups[1].shards[0].kv == KV
            && !CanServer(last.groups[1], 0) && CanServer(last.groups[2], 0) && last.groups[2].shards[0].kv == KV
  {
    hide Run, Next, EnvOk, Shaped;
    EnvFine();
    var ya, aa := FirstHalf();
    ys, acts := SecondHalf(ya, aa);
  }

  lemma Written() returns (ys: seq<System>, acts: seq<Action>)
    requires EnvOk(ENV)
    ensures Run(ENV, ys, acts) && |ys| == 4 && Shaped(ENV, ys[3])
            && ys[3] == At(A2, B0, {(1, C1)}, {}, {}, KV, {(0, 0)})
  {
    hide Run, Next, EnvOk, Shaped;
    var y0 := At(A0, B0, {}, {}, {}, map[], {});
    var y1 := At(A0, B0, {(1, C1)}, {}, {}, map[], {});
    var y2 := At(A1, B0, {(1, C1)}, {}, {}, map[], {});
    var y3 := At(A2, B0, {(1, C1)}, {}, {}, KV, {(0, 0)});
    GroupSteps();
    assert ConfigAt(ENV, 1) == C1;
    AtShaped(A0, B0, {}, {}, {}, map[], {});
    AtShaped(A0, B0, {(1, C1)}, {}, {}, map[], {});
    AtShaped(A1, B0, {(1, C1)}, {}, {}, map[], {});
    AtShaped(A2, B0, {(1, C1)}, {}, {}, KV, {(0, 0)});
    StartRun(y0);
    ProposeStep(y0, 1, C1);
    assert y0.(proposals := y0.proposals + {(1, C1)}) == y1;
    ys, acts := [y0], [];
    Grow(ys, acts, ProposeConfig(1), y1);
    ys, acts := ys + [y1], acts + [ProposeConfig(1)];
    ConfigStep(y1, 1, C1, A1);
    assert y1.(groups := y1.groups[1 := A1]) == y2;
    Grow(ys, acts, CommitConfig(1, C1), y2);
    ys, acts := ys + [y2], acts + [CommitConfig(1, C1)];
    PutStep(y2, y3);
    Grow(ys, acts, CommitOperation(1, 0, 0), y3);
    ys, acts := ys + [y3], acts + [CommitOperation(1, 0, 0)];
  }

  lemma FirstHalf() returns (ys: seq<System>, acts: seq<Action>)
    requires EnvOk(ENV)
    ensures Run(ENV, ys, acts) && |ys| == 6 && Shaped(ENV, ys[3]) && ys[3].groups == map[1 := A2, 2 := B0]
    ensures ys[5] == At(A3, B0, {(1, C1), (1, C2)}, {}, {}, KV, {(0, 0)})
  {
    hide Run, Next, EnvOk, Shaped;
    ys, acts := Written();
    var y3 := ys[3];
    var y4 := At(A2, B0, {(1, C1), (1, C2)}, {}, {}, KV, {(0, 0)});
    var y5 := At(A3, B0, {(1, C1), (1, C2)}, {}, {}, KV, {(0, 0)});
    GroupSteps();
    assert ConfigAt(ENV, 2) == C2;
    AtShaped(A2, B0, {(1, C1), (1, C2)}, {}, {}, KV, {(0, 0)});
    ProposeStep(y3, 1, C2);
    assert y3.(proposals := y3.proposals + {(1, C2)}) == y4;
    Grow(ys, acts, ProposeConfig(1), y4);
    ys, acts := ys + [y4], acts + [ProposeConfig(1)];
    ConfigStep(y4, 1, C2, A3);
    assert y4.(groups := y4.groups[1 := A3]) == y5;
    Grow(ys, acts, CommitConfig(1, C2), y5);
    ys, acts := ys + [y5], acts + [CommitConfig(1, C2)];
  }

  lemma PutStep(y2: System, y3: System)
    requires EnvOk(ENV) && Shaped(ENV, y2)
    requires y2 == At(A1, B0, {(1, C1)}, {}, {}, map[], {}) && y3 == At(A2, B0, {(1, C1)}, {}, {}, KV, {(0, 0)})
    ensures Next(ENV, y2, CommitOperation(1, 0, 0), y3)
  {
    WriteStep();
    assert ENV.request(0, 0) == Request(0, 0);
    assert TakesEffect(y2.groups[1], Request(0, 0));
    assert Execute(map[], Request(0, 0)) == KV;
    assert y2.groups[1 := A2] == y3.groups;
  }

  lemma SecondHalf(ya: seq<System>, aa: seq<Action>) returns (ys: seq<System>, acts: seq<Action>)
    requires EnvOk(ENV) && Run(ENV, ya, aa) && |ya| == 6
             && ya[5] == At(A3, B0, {(1, C1), (1, C2)}, {}, {}, KV, {(0, 0)})
    ensures Run(ENV, ys, acts) && |ys| == 13 && ys[..6] == ya && Shaped(ENV, ys[12])
    ensures ys[12].groups == map[1 := A3, 2 := B3]
  {
    hide Run, Next, EnvOk, Shaped;
    var yb, ab := Configured(ya, aa);
    var p := {(1, C1), (1, C2), (2, C1), (2, C2)};
    var y9 := At(A3, B2, p, {}, {}, KV, {(0, 0)});
    var y10 := At(A3, B2, p, {TASK}, {}, KV, {(0, 0)});
    var y11 := At(A3, B2, p, {TASK}, {REPLY}, KV, {(0, 0)});
    var y12 := At(A3, B3, p, {TASK}, {REPLY}, KV, {(0, 0)});
    AtShaped(A3, B2, p, {}, {}, KV, {(0, 0)});
    AtShaped(A3, B2, p, {TASK}, {}, KV, {(0, 0)});
    AtShaped(A3, B2, p, {TASK}, {REPLY}, KV, {(0, 0)});
    AtShaped(A3, B3, p, {TASK}, {REPLY}, KV, {(0, 0)});
    PullStep(y9, y10);
    Grow(yb, ab, AskPull(TASK), y10);
    AnswerStep(y10, y11);
    Grow(yb + [y10], ab + [AskPull(TASK)], AnswerPull(TASK), y11);
    InsertStep(y11, y12);
    Grow(yb + [y10] + [y11], ab + [AskPull(TASK)] + [AnswerPull(TASK)], CommitInsert(REPLY, [0]), y12);
    ys, acts := yb + [y10] + [y11] + [y12], ab + [AskPull(TASK)] + [AnswerPull(TASK)] + [CommitInsert(REPLY, [0])];
  }

  lemma Configured(ya: seq<System>, aa: seq<Action>) returns (ys: seq<System>, acts: seq<Action>)
    requires EnvOk(ENV) && Run(ENV, ya, aa) && |ya| == 6
             && ya[5] == At(A3, B0, {(1, C1), (1, C2)}, {}, {}, KV, {(0, 0)})
    ensures Run(ENV, ys, acts) && |ys| == 10 && ys[..6] == ya
    ensures ys[9] == At(A3, B2, {(1, C1), (1, C2), (2, C1), (2, C2)}, {}, {}, KV, {(0, 0)})
  {
    hide Run, Next, EnvOk, Shaped;
    var y5 := ya[5];
    var y6 := At(A3, B0, {(1, C1), (1, C2), (2, C1)}, {}, {}, KV, {(0, 0)});
    var y7 := At(A3, B1, {(1, C1), (1, C2), (2, C1)}, {}, {}, KV, {(0, 0)});
    var y8 := At(A3, B1, {(1, C1), (1, C2), (2, C1), (2, C2)}, {}, {}, KV, {(0, 0)});
    var y9 := At(A3, B2, {(1, C1), (1, C2), (2, C1), (2, C2)}, {}, {}, KV, {(0, 0)});
    GroupSteps();
    assert ConfigAt(ENV, 1) == C1 && ConfigAt(ENV, 2) == C2;
    AtShaped(A3, B0, {(1, C1), (1, C2)}, {}, {}, KV, {(0, 0)});
    AtShaped(A3, B0, {(1, C1), (1, C2), (2, C1)}, {}, {}, KV, {(0, 0)});
    AtShaped(A3, B1, {(1, C1), (1, C2), (2, C1)}, {}, {}, KV, {(0, 0)});
    AtShaped(A3, B1, {(1, C1), (1, C2), (2, C1), (2, C2)}, {}, {}, KV, {(0, 0)});
    ProposeStep(y5, 2, C1);
    assert y5.(proposals := y5.proposals + {(2, C1)}) == y6;
    Grow(ya, aa, ProposeConfig(2), y6);
    ConfigStep(y6, 2, C1, B1);
    assert y6.(groups := y6.groups[2 := B1]) == y7;
    Grow(ya + [y6], aa + [ProposeConfig(2)], CommitConfig(2, C1), y7);
    ProposeStep(y7, 2, C2);
    assert y7.(proposals := y7.proposals + {(2, C2)}) == y8;
    Grow(ya + [y6] + [y7], aa + [ProposeConfig(2)] + [CommitConfig(2, C1)], ProposeConfig(2), y8);
    ConfigStep(y8, 2, C2, B2);
    assert y8.(groups := y8.groups[2 := B2]) == y9;
    Grow(ya + [y6] + [y7] + [y8], aa + [ProposeConfig(2)] + [CommitConfig(2, C1)] + [ProposeConfig(2)],
         CommitConfig(2, C2), y9);
    ys := ya + [y6] + [y7] + [y8] + [y9];
    acts := aa + [ProposeConfig(2)] + [CommitConfig(2, C1)] + [ProposeConfig(2)] + [CommitConfig(2, C2)];
  }

  lemma PullStep(y9: System, y10: System)
    requires EnvOk(ENV) && Shaped(ENV, y9) && y9.groups == map[1 := A3, 2 := B2] && y9.pulls == {}
             && y10 == y9.(pulls := {TASK})
    ensures Next(ENV, y9, AskPull(TASK), y10)
  {
    forall s ensures s in TASK.ids <==> InStatus(B2, PULLING, 1, s) {}
    assert Lists(TASK.ids, s => InStatus(y9.groups[2], PULLING, 1, s));
  }

  lemma AnswerStep(y10: System, y11: System)
    requires EnvOk(ENV) && Shaped(ENV, y10) && y10.groups == map[1 := A3, 2 := B2] && y10.pulls == {TASK}
             && y10.replies == {}
    requires y11 == y10.(replies := {REPLY})
    ensures Next(ENV, y10, AnswerPull(TASK), y11)
  {
    MoveSteps();
  }

  lemma InsertStep(y11: System, y12: System)
    requires EnvOk(ENV) && Shaped(ENV, y11) && y11.groups == map[1 := A3, 2 := B2] && TASK in y11.pulls
             && REPLY in y11.replies
    requires y12 == y11.(groups := map[1 := A3, 2 := B3])
    ensures Next(ENV, y11, CommitInsert(REPLY, [0]), y12)
  {
    MoveSteps();
    assert Answers(TASK, REPLY);
    assert Lists([0], s => s in REPLY.data.shards);
    assert y11.groups[2 := B3] == y12.groups;
  }
}
