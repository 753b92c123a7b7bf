/** The grant service's state read off the actions of a run: which submission a record stands for, which list
    is the one served, and what marks a record as confirmed. */
module GrantRules {
  import opened Options
  import opened Texts
  import opened ServedBrackets
  import opened StatsIndex
  import opened StatsService
  import StatsLaws
  import opened Grants
  import opened GrantLaws

  // ---------- The record ----------

  /** The submission of the request under way for `key` that wrote these fields. */
  predicate WroteRecord(s: System, a: Action, key: GrantKey, g: GrantRecord) {
    && a.Close? && a.wallet in s.pending && a.reply == Submitted(g.txId, g.updatedAt)
    && s.pending[a.wallet] == Pending(key, g.data)
  }

  predicate WritesKey(s: System, a: Action, key: GrantKey) {
    a.Close? && a.reply.Submitted? && a.wallet in s.pending && s.pending[a.wallet].key == key
  }

  lemma RecordFollows(cfg: Config, s: System, a: Action, s': System, key: GrantKey)
    requires Enabled(s, a) && Steps(cfg, s, a, s')
    ensures WritesKey(s, a, key) ==>
      && key in s'.records && WroteRecord(s, a, key, s'.records[key])
      && s'.records[key].finalizeTxId == if key in s.records then s.records[key].finalizeTxId else None
    ensures !WritesKey(s, a, key) ==>
      && (key in s'.records <==> key in s.records)
      && (key in s.records ==> s'.records[key] == s.records[key].(finalizeTxId := s'.records[key].finalizeTxId))
  {
    hide Decide, Handled, StatsLaws.Steps, StatsLaws.Allowed, WellFormed;
  }

  /** In every run a record is there exactly after a submission of its key was reported, and holds what the
      last one of these submitted: its grant, transaction and time. */
  lemma {:induction false} RecordIsTheLatest(cfg: Config, states: seq<System>, actions: seq<Action>, n: nat, key: GrantKey)
    requires IsRun(cfg, states, actions) && n <= |actions|
    ensures key in states[n].records <==> exists k :: 0 <= k < n && WritesKey(states[k], actions[k], key)
    ensures key in states[n].records ==> exists k :: 0 <= k < n && IsLastWrite(states, actions, n, key, k)
  {
    hide Enabled, Steps, WritesKey, WroteRecord;
    if n > 0 {
      RecordIsTheLatest(cfg, states, actions, n - 1, key);
      RecordFollows(cfg, states[n - 1], actions[n - 1], states[n], key);
      if WritesKey(states[n - 1], actions[n - 1], key) {
        assert IsLastWrite(states, actions, n, key, n - 1);
      } else if key in states[n].records {
        var k :| 0 <= k < n - 1 && IsLastWrite(states, actions, n - 1, key, k);
        SameWrite(states[k], actions[k], key, states[n - 1].records[key], states[n].records[key]);
        assert IsLastWrite(states, actions, n, key, k);
      }
    }
  }

  /** The action wrote the record as it stands, and no later one did. */
  predicate IsLastWrite(states: seq<System>, actions: seq<Action>, n: nat, key: GrantKey, k: nat)
    requires k < n <= |actions| < |states|
  {
    && key in states[n].records && WroteRecord(states[k], actions[k], key, states[n].records[key])
    && forall j :: k < j < n ==> !WritesKey(states[j], actions[j], key)
  }

  lemma SameWrite(s: System, a: Action, key: GrantKey, g: GrantRecord, g': GrantRecord)
    requires WroteRecord(s, a, key, g) && g' == g.(finalizeTxId := g'.finalizeTxId)
    ensures WroteRecord(s, a, key, g')
  {
  }

  // ---------- The list served ----------

  predicate ServesTo(a: Action, wallet: string, tournamentId: nat) {
    a.Serve? && a.player == wallet && a.tournamentId == tournamentId
  }

  lemma ServedFollows(cfg: Config, s: System, a: Action, s': System, wallet: string, t: nat)
    requires Enabled(s, a) && Steps(cfg, s, a, s')
    ensures ServesTo(a, wallet, t) ==> (wallet, t) in s'.served && s'.served[(wallet, t)] == a.ids
    ensures !ServesTo(a, wallet, t) ==>
      && ((wallet, t) in s'.served <==> (wallet, t) in s.served)
      && ((wallet, t) in s.served ==> s'.served[(wallet, t)] == s.served[(wallet, t)])
  {
    hide Decide, Handled, StatsLaws.Steps, StatsLaws.Allowed, WellFormed;
  }

  /** In every run the list a bracket is held against is the one served last to its wallet for its
      tournament. */
  lemma {:induction false} ServedIsTheLatest(cfg: Config, states: seq<System>, actions: seq<Action>, n: nat, wallet: string, t: nat)
    requires IsRun(cfg, states, actions) && n <= |actions|
    ensures (wallet, t) in states[n].served <==> exists k :: 0 <= k < n && ServesTo(actions[k], wallet, t)
    ensures (wallet, t) in states[n].served ==>
      exists k :: 0 <= k < n && IsLastServing(actions, n, wallet, t, k) && actions[k].ids == states[n].served[(wallet, t)]
  {
    hide Enabled, Steps, ServesTo;
    if n > 0 {
      ServedIsTheLatest(cfg, states, actions, n - 1, wallet, t);
      ServedFollows(cfg, states[n - 1], actions[n - 1], states[n], wallet, t);
      if ServesTo(actions[n - 1], wallet, t) {
        LastServing(actions, n, wallet, t, n - 1);
      } else if (wallet, t) in states[n].served {
        var k :| 0 <= k < n - 1 && IsLastServing(actions, n - 1, wallet, t, k) && actions[k].ids == states[n - 1].served[(wallet, t)];
        LastServing(actions, n, wallet, t, k);
      }
    }
  }

  predicate IsLastServing(actions: seq<Action>, n: nat, wallet: string, t: nat, k: nat)
    requires k < n <= |actions|
  {
    actions[k].Serve? && ServesTo(actions[k], wallet, t) && forall j :: k < j < n ==> !ServesTo(actions[j], wallet, t)
  }

  lemma LastServing(actions: seq<Action>, n: nat, wallet: string, t: nat, k: nat)
    requires k < n <= |actions| && ServesTo(actions[k], wallet, t) && forall j :: k < j < n ==> !ServesTo(actions[j], wallet, t)
    ensures actions[k].Serve? && IsLastServing(actions, n, wallet, t, k)
  {
  }

  // ---------- The mark ----------

  /** What the statistics need to count a play: nothing if it was counted before, else a known user or no
      points. */
  predicate CanBeCounted(db: Db, play: PlayKey, user: string, point: int) {
    play in db.plays || point == 0 || Lower(user) in db.points
  }

  /** A record is marked exactly by a confirmation that finds it open, whose transaction the indexer knows as
      a call of the contract, and whose play can be counted; the play is keyed by the grant's chain and the
      transaction, the mark is the transaction, and nothing else of the record changes. */
  lemma MarkedIff(cfg: Config, s: System, a: Action, s': System, key: GrantKey)
    requires GrantsOk(cfg, s) && Enabled(s, a) && Steps(cfg, s, a, s') && key in s.records && s.records[key].finalizeTxId == None
    ensures key in s'.records
    ensures s'.records[key].finalizeTxId.Some? <==>
      && a.Confirm? && a.key == key && a.tx.Some? && a.tx.value.callsContract
      && CanBeCounted(s.db, PlayKey(key.chainId, a.txId, 0), key.wallet, s.records[key].data.point)
    ensures s'.records[key].finalizeTxId.Some? ==>
      && s'.records[key] == s.records[key].(finalizeTxId := Some(a.txId)) && PlayKey(key.chainId, a.txId, 0) in s'.db.plays
  {
    hide Decide, StatsLaws.Steps, StatsLaws.Allowed, WellFormed, GrantsOk, Moved, Lower, Ids, FirstAndSecond;
    if a.Confirm? && a.key == key { ConfirmationFailsIff(cfg, s, key, FinalizedPlay(key, a.txId)); }
  }
}
