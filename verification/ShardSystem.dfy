/**
 All groups of the sharded store together. Commands and pull replies that were
 once sent stay available: they may be delayed, repeated and reordered at will,
 and what a stale leader does is something done late. So do delete requests,
 until they are lost.
 */
module ShardSystem {
  import opened ShardGroup

  /**
   What is fixed: the configurations the controller hands out, and the arguments each client gives
   each of its commands.
   */
  datatype Env = Env(nShards: nat, gids: set<int>, owner: nat -> seq<int>, request: (int, int) -> CommandArgs)

  /** The group a configuration gives the shard to; 0 is none. */
  ghost function Assigned(e: Env, k: nat, s: int): int {
    if 0 <= s < |e.owner(k)| then e.owner(k)[s] else 0
  }

  /** The group that has the shard or, if nobody has it, had it last: giving it to nobody leaves it where it is. */
  ghost function Holder(e: Env, k: nat, s: int): int {
    if Assigned(e, k, s) != 0 || k == 0 then Assigned(e, k, s) else Holder(e, k - 1, s)
  }

  /** Configuration 0 has no owners, and who gets a shard is one of the groups. */
  ghost predicate WellFormed(e: Env) {
    && e.nShards > 0 && 0 !in e.gids
    && (forall k: nat {:trigger e.owner(k)} :: |e.owner(k)| == e.nShards)
    && (forall s :: Holder(e, 0, s) == 0)
    && (forall k: nat, s :: Holder(e, k, s) != 0 ==> Holder(e, k, s) in e.gids)
    && (forall c, m {:trigger e.request(c, m)} :: e.request(c, m).clientId == c && e.request(c, m).commandId == m)
  }

  /** A shard that nobody has goes back to the group that had it last, or on to nobody. */
  ghost predicate Returns(e: Env, k: nat, s: int) {
    Assigned(e, k, s) == 0 && Holder(e, k, s) != 0 ==>
      Assigned(e, k + 1, s) == 0 || Assigned(e, k + 1, s) == Holder(e, k, s)
  }

  ghost predicate AllReturn(e: Env) {
    forall k: nat, s :: Returns(e, k, s)
  }

  ghost predicate EnvOk(e: Env) {
    WellFormed(e) && AllReturn(e)
  }

  ghost function ConfigAt(e: Env, k: nat): Config { Config(k, e.owner(k)) }

  /** A request of group `puller` to group `source` about shards, at some configuration. */
  datatype Task = Task(puller: int, source: int, configNum: nat, ids: seq<int>)

  datatype Reply = Reply(puller: int, source: int, data: ShardData)

  /**
   `store` and `done` record what the operations that took effect add up to: the
   key/value map they produce when applied one after the other, and which they were.
   */
  datatype System = System(groups: map<int, Group>, proposals: set<(int, Config)>, pulls: set<Task>,
                           replies: set<Reply>, deletes: set<Task>,
                           store: map<string, string>, done: set<(int, int)>)

  ghost predicate TaskShaped(e: Env, t: Task) {
    t.puller in e.gids && t.source in e.gids && Within(t.ids, e.nShards)
  }

  ghost predicate ReplyShaped(e: Env, r: Reply) {
    r.puller in e.gids && r.source in e.gids && forall s <- r.data.shards :: 0 <= s < e.nShards
  }

  ghost predicate Shaped(e: Env, y: System) {
    && y.groups.Keys == e.gids
    && (forall g <- e.gids :: y.groups[g].Sized(e.nShards))
    && (forall c <- y.proposals :: c.0 in e.gids && |c.1.shards| == e.nShards)
    && (forall t <- y.pulls :: TaskShaped(e, t))
    && (forall r <- y.replies :: ReplyShaped(e, r))
    && (forall t <- y.deletes :: TaskShaped(e, t))
  }

  ghost predicate IsInit(e: Env, y: System) {
    && y.groups == (map g | g in e.gids :: Group(g, ConfigAt(e, 0), ConfigAt(e, 0), seq(e.nShards, _ => NewShard()),
                                                 map[]))
    && y.proposals == {} && y.pulls == {} && y.replies == {} && y.deletes == {}
    && y.store == map[] && y.done == {}
  }

  datatype Action =
    | ProposeConfig(gid: int)
    | CommitConfig(gid: int, config: Config)
    | AskPull(task: Task)
    | AnswerPull(task: Task)
    | CommitInsert(reply: Reply, order: seq<int>)
    | AskDelete(task: Task)
    | CommitDelete(gid: int, task: Task)
    | LoseDeletes(tasks: set<Task>)
    | CommitOperation(gid: int, clientId: int, commandId: int)

  /** The shards a task is about are those of its group in the given status, in any order, and there are some. */
  ghost predicate Collects(e: Env, y: System, t: Task, status: Status)
    requires Shaped(e, y)
  {
    && t.puller in e.gids && t.source in e.gids && t.ids != []
    && t.configNum == y.groups[t.puller].current.num
    && Lists(t.ids, s => InStatus(y.groups[t.puller], status, t.source, s))
  }

  ghost predicate Answers(t: Task, r: Reply) {
    && t.puller == r.puller && t.source == r.source && t.configNum == r.data.configNum
    && forall s :: s in t.ids <==> s in r.data.shards
  }

  /** The reply is to a request that was made. */
  ghost predicate Asked(y: System, r: Reply) {
    exists t <- y.pulls :: Answers(t, r)
  }

  ghost predicate Enabled(e: Env, y: System, a: Action)
    requires Shaped(e, y)
  {
    match a
    case ProposeConfig(g) => g in e.gids && AllServing(y.groups[g])
    case CommitConfig(g, config) => (g, config) in y.proposals
    case AskPull(t) => Collects(e, y, t, PULLING)
    // a stale leader's answer to a later request is one it could have made at the time, so none is waited for
    case AnswerPull(t) => TaskShaped(e, t) && y.groups[t.source].current.num >= t.configNum
    case CommitInsert(r, order) => r in y.replies && Asked(y, r) && Lists(order, s => s in r.data.shards)
    case AskDelete(t) => Collects(e, y, t, GC)
    // the source's answer is not waited for: it may also say OK without deleting
    case CommitDelete(g, t) => t in y.deletes && (g == t.puller || g == t.source)
    // a request that has been answered, perhaps with such an OK, does not come again
    case LoseDeletes(ts) => true
    case CommitOperation(g, c, m) => g in e.gids
  }

  ghost function WithGroup(y: System, g: int, grp: Group): System {
    y.(groups := y.groups[g := grp])
  }

  ghost predicate TakesEffect(g: Group, args: CommandArgs)
    requires |g.shards| > 0 && g.Sized(|g.shards|)
  {
    Takes(g, args) && args.op != Get
  }

  ghost function Apply(e: Env, y: System, a: Action): System
    requires WellFormed(e) && Shaped(e, y) && Enabled(e, y, a)
  {
    match a
    case ProposeConfig(g) => y.(proposals := y.proposals + {(g, ConfigAt(e, y.groups[g].current.num + 1))})
    case CommitConfig(g, config) => WithGroup(y, g, ApplyConfiguration(y.groups[g], config))
    case AskPull(t) => y.(pulls := y.pulls + {t})
    case AnswerPull(t) => y.(replies := y.replies +
                             {Reply(t.puller, t.source, Answer(y.groups[t.source], t.configNum, t.ids))})
    case CommitInsert(r, order) =>
      ListedWithin(order, r.data.shards, e.nShards);
      WithGroup(y, r.puller, ApplyInsert(y.groups[r.puller], r.data, order))
    case AskDelete(t) => y.(deletes := y.deletes + {t})
    case CommitDelete(g, t) => WithGroup(y, g, ApplyDelete(y.groups[g], t.configNum, t.ids))
    case LoseDeletes(ts) => y.(deletes := y.deletes - ts)
    case CommitOperation(g, c, m) =>
      var args := e.request(c, m);
      var y' := WithGroup(y, g, ApplyOperation(y.groups[g], args).0);
      if TakesEffect(y.groups[g], args) then y'.(store := Execute(y.store, args), done := y.done + {(c, m)}) else y'
  }

  lemma ListedWithin<T>(order: seq<int>, data: map<int, T>, n: nat)
    requires Lists(order, s => s in data) && forall s <- data :: 0 <= s < n
    ensures Within(order, n) && Given(order, data)
  {
    forall i | 0 <= i < |order| ensures order[i] in data {
      assert order[i] in order;
    }
  }

  lemma ShapedKept(e: Env, y: System, a: Action)
    requires WellFormed(e) && Shaped(e, y) && Enabled(e, y, a)
    ensures Shaped(e, Apply(e, y, a))
  {
    hide Holder;
    match a
    case ProposeConfig(g) =>
    case CommitConfig(g, config) =>
    case AskPull(t) => CollectsWithin(e, y, t, PULLING);
    case AnswerPull(t) =>
      forall i | 0 <= i < |t.ids| ensures 0 <= t.ids[i] < e.nShards {}
    case CommitInsert(r, order) => ListedWithin(order, r.data.shards, e.nShards);
    case AskDelete(t) => CollectsWithin(e, y, t, GC);
    case CommitDelete(g, t) =>
    case LoseDeletes(ts) =>
    case CommitOperation(g, c, m) =>
  }

  lemma CollectsWithin(e: Env, y: System, t: Task, status: Status)
    requires Shaped(e, y) && Collects(e, y, t, status)
    ensures Within(t.ids, e.nShards)
  {
    forall i | 0 <= i < |t.ids| ensures 0 <= t.ids[i] < e.nShards {
      assert t.ids[i] in t.ids;
    }
  }

  /** A run: states and the actions between them. */
  ghost predicate Run(e: Env, ys: seq<System>, acts: seq<Action>) {
    && |ys| == |acts| + 1
    && IsInit(e, ys[0])
    && forall i :: 0 <= i < |acts| ==> Next(e, ys[i], acts[i], ys[i + 1])
  }

  ghost predicate Next(e: Env, y: System, a: Action, y': System) {
    WellFormed(e) && Shaped(e, y) && Enabled(e, y, a) && y' == Apply(e, y, a)
  }
}
