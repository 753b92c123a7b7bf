/** Sending one notification to many device tokens: a daily quota per user, one request per URL and chunk,
    and retries of what the service asks to send again. */
module FanOut {
  import opened Options
  import opened Sums

  datatype Token = Token(user: string, url: string, token: string)

  /** The answer to one post. */
  datatype Reply =
    | Unreachable
    | Status(code: int)                                                    // any answer that is not 2xx
    | Answered(successful: seq<string>, invalid: seq<string>, rateLimited: seq<string>)
    | Garbled                                                              // 2xx with a body that does not parse

  datatype Outcome = Outcome(successful: seq<string>, invalid: seq<string>, retry: seq<string>, failed: seq<string>)

  datatype Sent = Sent(successful: seq<string>, invalid: seq<string>, rateLimited: seq<string>, failed: seq<string>)

  /** The notification service: what it answers the k-th post, to this URL with these tokens. */
  type Service = (nat, string, seq<string>) -> Reply

  /** The service keeps its protocol when each answer accounts for the tokens posted. */
  ghost predicate Accounts(ns: Service) {
    forall k: nat, url, tokens ::
      var r := ns(k, url, tokens);
      r.Answered? ==> multiset(r.successful) + multiset(r.invalid) + multiset(r.rateLimited) == multiset(tokens)
  }

  function All(s: Sent): multiset<string> {
    multiset(s.successful) + multiset(s.invalid) + multiset(s.rateLimited) + multiset(s.failed)
  }

  // ---------- One post ----------

  /** 429 and server errors are transient, other refusals permanent; None when the body does not parse. */
  function PostToNs(reply: Reply, tokens: seq<string>): Option<Outcome> {
    match reply
    case Unreachable => Some(Outcome([], [], tokens, []))
    case Status(code) => Some(if code == 429 || code >= 500 then Outcome([], [], tokens, []) else Outcome([], [], [], tokens))
    case Answered(successful, invalid, rateLimited) => Some(Outcome(successful, invalid, rateLimited, []))
    case Garbled => None
  }

  function Plus(o: Outcome, rest: Sent): Sent {
    Sent(o.successful + rest.successful, o.invalid + rest.invalid, rest.rateLimited, o.failed + rest.failed)
  }

  /** The attempts from `attempt` on: the result, and how many posts were made in all. */
  function Attempts(ns: Service, k: nat, url: string, pending: seq<string>, attempt: nat,
      maxRetries: int): (Option<Sent>, nat)
    decreases maxRetries + 1 - attempt
  {
    if attempt > maxRetries || pending == [] then (Some(Sent([], [], pending, [])), k)
    else
      var o := PostToNs(ns(k, url, pending), pending);
      if o.None? then (None, k + 1)
      else
        var (rest, posts) := Attempts(ns, k + 1, url, o.value.retry, attempt + 1, maxRetries);
        (if rest.None? then None else Some(Plus(o.value, rest.value)), posts)
  }

  lemma AttemptsOver(ns: Service, k: nat, url: string, pending: seq<string>, attempt: nat, maxRetries: int)
    requires attempt > maxRetries || pending == []
    ensures Attempts(ns, k, url, pending, attempt, maxRetries) == (Some(Sent([], [], pending, [])), k)
  {
  }

  lemma AttemptOnce(ns: Service, k: nat, url: string, pending: seq<string>, attempt: nat, maxRetries: int)
    requires attempt <= maxRetries && pending != []
    ensures var o, all := PostToNs(ns(k, url, pending), pending), Attempts(ns, k, url, pending, attempt, maxRetries);
      if o.None? then all == (None, k + 1)
      else
        var (rest, posts) := Attempts(ns, k + 1, url, o.value.retry, attempt + 1, maxRetries);
        all == (if rest.None? then None else Some(Plus(o.value, rest.value)), posts)
  {
  }

  lemma PostAccounts(ns: Service, k: nat, url: string, tokens: seq<string>)
    requires Accounts(ns)
    ensures var o := PostToNs(ns(k, url, tokens), tokens);
      o.Some? ==>
        multiset(o.value.successful) + multiset(o.value.invalid) + multiset(o.value.retry) + multiset(o.value.failed)
          == multiset(tokens)
  {
  }

  function Tries(maxRetries: int): nat {
    if maxRetries < 0 then 0 else maxRetries + 1
  }

  lemma {:induction false} AttemptsAreBounded(ns: Service, k: nat, url: string, pending: seq<string>,
      attempt: nat, maxRetries: int)
    ensures k <= Attempts(ns, k, url, pending, attempt, maxRetries).1
    ensures attempt <= Tries(maxRetries) ==> Attempts(ns, k, url, pending, attempt, maxRetries).1 <= k + Tries(maxRetries) - attempt
    decreases maxRetries + 1 - attempt
  {
    hide PostToNs;
    if attempt <= maxRetries && pending != [] {
      var o := PostToNs(ns(k, url, pending), pending);
      if o.Some? { AttemptsAreBounded(ns, k + 1, url, o.value.retry, attempt + 1, maxRetries); }
    }
  }

  /** Retrying loses no token and invents none, whatever is refused, retried or left over, and posts at
      most once more than the retries allowed. */
  lemma {:induction false} AttemptsConserveTokens(ns: Service, k: nat, url: string, pending: seq<string>,
      attempt: nat, maxRetries: int)
    requires Accounts(ns)
    ensures var (sent, posts) := Attempts(ns, k, url, pending, attempt, maxRetries);
      && (sent.Some? ==> All(sent.value) == multiset(pending))
      && k <= posts && (posts == k || posts <= k + maxRetries + 1 - attempt)
    decreases maxRetries + 1 - attempt
  {
    hide Accounts, PostToNs;
    if attempt > maxRetries || pending == [] {
    } else {
      var o := PostToNs(ns(k, url, pending), pending);
      PostAccounts(ns, k, url, pending);
      if o.Some? {
        AttemptsConserveTokens(ns, k + 1, url, o.value.retry, attempt + 1, maxRetries);
        var (rest, _) := Attempts(ns, k + 1, url, o.value.retry, attempt + 1, maxRetries);
        if rest.Some? { PlusAdds(o.value, rest.value); }
      }
    }
  }

  /** A service that is never reached gets every attempt allowed, and all tokens end up rate limited. */
  lemma {:induction false} OutageUsesAllAttempts(ns: Service, k: nat, url: string, pending: seq<string>,
      attempt: nat, maxRetries: int)
    requires pending != [] && forall i: nat :: ns(i, url, pending) == Unreachable
    ensures Attempts(ns, k, url, pending, attempt, maxRetries)
         == (Some(Sent([], [], pending, [])), if attempt > maxRetries then k else k + maxRetries + 1 - attempt)
    decreases maxRetries + 1 - attempt
  {
    if attempt <= maxRetries {
      OutageUsesAllAttempts(ns, k + 1, url, pending, attempt + 1, maxRetries);
      PlusNothing(PostToNs(Unreachable, pending).value, Sent([], [], pending, []));
    }
  }

  lemma PlusAdds(o: Outcome, rest: Sent)
    ensures All(Plus(o, rest)) == multiset(o.successful) + multiset(o.invalid) + multiset(o.failed) + All(rest)
  {
  }

  lemma PlusNothing(o: Outcome, rest: Sent)
    requires o.successful == [] && o.invalid == [] && o.failed == []
    ensures Plus(o, rest) == rest
  {
  }

  function Then(a: Outcome, b: Outcome): Outcome {
    Outcome(a.successful + b.successful, a.invalid + b.invalid, b.retry, a.failed + b.failed)
  }

  lemma PlusThen(a: Outcome, b: Outcome, rest: Sent)
    ensures Plus(Then(a, b), rest) == Plus(a, Plus(b, rest))
  {
    assert a.successful + b.successful + rest.successful == a.successful + (b.successful + rest.successful);
    assert a.invalid + b.invalid + rest.invalid == a.invalid + (b.invalid + rest.invalid);
    assert a.failed + b.failed + rest.failed == a.failed + (b.failed + rest.failed);
  }

  // ---------- Grouping and chunking ----------

  /** The items under any of the given keys. */
  function Under<T>(items: seq<T>, key: T -> string, keys: set<string>): seq<T> {
    if items == [] then []
    else Under(items[..|items| - 1], key, keys) + (if key(items[|items| - 1]) in keys then [items[|items| - 1]] else [])
  }

  function Having<T>(items: seq<T>, key: T -> string, k: string): seq<T> {
    Under(items, key, {k})
  }

  predicate NoRepeats(s: seq<string>) {
    forall i, j :: 0 <= i < j < |s| ==> s[i] != s[j]
  }

  function SetOf(s: seq<string>): set<string> {
    set k | k in s
  }

  function KeySet<T>(items: seq<T>, key: T -> string): set<string> {
    if items == [] then {} else KeySet(items[..|items| - 1], key) + {key(items[|items| - 1])}
  }

  /** `groups` sorts the items by key, and `order` lists the keys they have. */
  ghost predicate Grouped<T>(items: seq<T>, key: T -> string, order: seq<string>, groups: map<string, seq<T>>) {
    && NoRepeats(order) && SetOf(order) == groups.Keys == KeySet(items, key)
    && forall k :: Having(items, key, k) == if k in groups then groups[k] else []
  }

  /** A map from key to items, with its keys in the order they were entered. */
  method GroupBy<T>(items: seq<T>, key: T -> string) returns (order: seq<string>, groups: map<string, seq<T>>)
    ensures Grouped(items, key, order, groups)
  {
    hide Grouped;
    order, groups := [], map[];
    NothingGrouped(key);
    for i := 0 to |items|
      invariant Grouped(items[..i], key, order, groups)
    {
      GroupOneMore(items[..i], key, order, groups, items[i]);
      assert items[..i + 1] == items[..i] + [items[i]];
      var k := key(items[i]);
      var list := if k in groups then groups[k] else [];
      if k !in groups { order := order + [k]; }
      groups := groups[k := list + [items[i]]];
    }
    assert items[..|items|] == items;
  }

  lemma NothingGrouped<T>(key: T -> string)
    ensures Grouped([], key, [], map[])
  {
  }

  lemma GroupOneMore<T>(items: seq<T>, key: T -> string, order: seq<string>, groups: map<string, seq<T>>, item: T)
    requires Grouped(items, key, order, groups)
    ensures var k := key(item);
      Grouped(items + [item], key, if k in groups then order else order + [k],
              groups[k := (if k in groups then groups[k] else []) + [item]])
  {
    hide Having, KeySet, SetOf, NoRepeats;
    var k := key(item);
    KeysOneMore(items, key, item);
    OneMoreKey(order, k);
    forall k' ensures Having(items + [item], key, k') == Having(items, key, k') + (if k == k' then [item] else []) {
      HavingOneMore(items, key, item, k');
    }
  }

  lemma KeysOneMore<T>(items: seq<T>, key: T -> string, item: T)
    ensures KeySet(items + [item], key) == KeySet(items, key) + {key(item)}
  {
    assert (items + [item])[..|items|] == items;
  }

  lemma HavingOneMore<T>(items: seq<T>, key: T -> string, item: T, k: string)
    ensures Having(items + [item], key, k) == Having(items, key, k) + (if key(item) == k then [item] else [])
  {
    assert (items + [item])[..|items|] == items;
  }

  lemma OneMoreKey(order: seq<string>, k: string)
    requires NoRepeats(order)
    ensures SetOf(order + [k]) == SetOf(order) + {k}
    ensures k !in SetOf(order) ==> NoRepeats(order + [k])
  {
  }

  /** Walking along the keys, each one is new. */
  lemma NextKey(order: seq<string>, i: nat)
    requires NoRepeats(order) && i < |order|
    ensures SetOf(order[..i + 1]) == SetOf(order[..i]) + {order[i]}
    ensures order[i] !in SetOf(order[..i]) && order[i] in SetOf(order)
  {
    assert order[..i + 1] == order[..i] + [order[i]];
  }

  function Flat<T>(pieces: seq<seq<T>>): seq<T> {
    if pieces == [] then [] else Flat(pieces[..|pieces| - 1]) + pieces[|pieces| - 1]
  }

  /** How many pieces a list of `n` is cut into. */
  function Pieces(n: nat, size: nat): nat
    requires size >= 1
  {
    if n == 0 then 0 else if n <= size then 1 else 1 + Pieces(n - size, size)
  }

  /** Cutting a list into pieces: none empty, none over the size, all but the last full, nothing lost and
      nothing moved. */
  method Chunk<T>(items: seq<T>, size: nat) returns (chunks: seq<seq<T>>)
    requires size >= 1
    ensures Flat(chunks) == items && |chunks| == Pieces(|items|, size)
    ensures forall c <- chunks :: 0 < |c| <= size
    ensures forall i :: 0 <= i < |chunks| - 1 ==> |chunks[i]| == size
  {
    hide Flat, Pieces;
    chunks := [];
    var i := 0;
    NothingCut(items, size);
    while i < |items|
      invariant 0 <= i && Flat(chunks) == items[..if i < |items| then i else |items|]
      invariant |chunks| + (if i < |items| then Pieces(|items| - i, size) else 0) == Pieces(|items|, size)
      invariant forall c <- chunks :: 0 < |c| <= size
      invariant forall j :: 0 <= j < |chunks| - 1 ==> |chunks[j]| == size
      invariant i < |items| ==> forall j :: 0 <= j < |chunks| ==> |chunks[j]| == size
    {
      var to := if i + size < |items| then i + size else |items|;
      FlatOneMore(chunks, items[i..to]);
      CutOneMore(|items| - i, size);
      chunks := chunks + [items[i..to]];
      assert items[..i] + items[i..to] == items[..to];
      i := i + size;
    }
    assert items[..|items|] == items;
  }

  lemma FlatOneMore<T>(chunks: seq<seq<T>>, c: seq<T>)
    ensures Flat(chunks + [c]) == Flat(chunks) + c
  {
    assert (chunks + [c])[..|chunks|] == chunks;
  }

  lemma NothingCut<T>(items: seq<T>, size: nat)
    requires size >= 1
    ensures Flat<T>([]) == [] && (items == [] ==> Pieces(|items|, size) == 0)
  {
  }

  lemma CutOneMore(n: nat, size: nat)
    requires size >= 1 && n > 0
    ensures Pieces(n, size) == 1 + (if n <= size then 0 else Pieces(n - size, size))
  {
  }

  lemma {:induction false} UnderOneMore<T>(items: seq<T>, key: T -> string, keys: set<string>, k: string)
    requires k !in keys
    ensures multiset(Under(items, key, keys + {k})) == multiset(Under(items, key, keys)) + multiset(Having(items, key, k))
  {
    if items != [] {
      UnderOneMore(items[..|items| - 1], key, keys, k);
    }
  }

  lemma {:induction false} UnderNone<T>(items: seq<T>, key: T -> string)
    ensures Under(items, key, {}) == []
  {
    if items != [] { UnderNone(items[..|items| - 1], key); }
  }

  lemma {:induction false} UnderAll<T>(items: seq<T>, key: T -> string, keys: set<string>)
    requires KeySet(items, key) <= keys
    ensures Under(items, key, keys) == items
  {
    if items != [] {
      UnderAll(items[..|items| - 1], key, keys);
      assert items == items[..|items| - 1] + [items[|items| - 1]];
    }
  }

  // ---------- The sender ----------

  function UserOf(t: Token): string { t.user }

  function UrlOf(t: Token): string { t.url }

  function Strings(tokens: seq<Token>): (s: seq<string>)
    ensures |s| == |tokens|
  {
    seq(|tokens|, i requires 0 <= i < |tokens| => tokens[i].token)
  }

  lemma StringsOfSum(a: seq<Token>, b: seq<Token>)
    ensures Strings(a + b) == Strings(a) + Strings(b)
  {
  }

  lemma {:induction false} StringsUnderOneMore(items: seq<Token>, keys: set<string>, k: string)
    requires k !in keys
    ensures multiset(Strings(Under(items, UrlOf, keys + {k})))
         == multiset(Strings(Under(items, UrlOf, keys))) + multiset(Strings(Having(items, UrlOf, k)))
  {
    hide Strings;
    if items == [] {
      StringsOfSum([], []);
      assert Strings([]) == [];
    } else {
      var rest, last := items[..|items| - 1], items[|items| - 1];
      StringsUnderOneMore(rest, keys, k);
      StringsOfSum(Under(rest, UrlOf, keys + {k}), if UrlOf(last) in keys + {k} then [last] else []);
      StringsOfSum(Under(rest, UrlOf, keys), if UrlOf(last) in keys then [last] else []);
      StringsOfSum(Having(rest, UrlOf, k), if UrlOf(last) == k then [last] else []);
    }
  }

  function Count(counts: map<string, nat>, user: string): nat {
    if user in counts then counts[user] else 0
  }

  /** The users who may be sent one more message today. */
  function AllowedUsers(counts: map<string, nat>, limit: int, users: set<string>): set<string> {
    set u | u in users && Count(counts, u) + 1 <= limit
  }

  function Joined(a: Sent, b: Sent): Sent {
    Sent(a.successful + b.successful, a.invalid + b.invalid, a.rateLimited + b.rateLimited, a.failed + b.failed)
  }

  lemma JoinedAdds(a: Sent, b: Sent)
    ensures All(Joined(a, b)) == All(a) + All(b)
  {
  }

  /** One request made: its place in the log is its number; `attempt` counts the tries of its piece. */
  datatype Post = Post(url: string, tokens: seq<string>, attempt: nat)

  // ---------- What the log tells ----------

  function ReplyTo(ns: Service, log: seq<Post>, i: nat): Reply
    requires i < |log|
  {
    ns(i, log[i].url, log[i].tokens)
  }

  /** The tokens an answer asks to send again: all of them when the service is out, busy or broken, else the
      ones it names. */
  function AskedAgain(reply: Reply, tokens: seq<string>): seq<string> {
    match reply
    case Unreachable => tokens
    case Status(code) => if code == 429 || code >= 500 then tokens else []
    case Answered(_, _, rateLimited) => rateLimited
    case Garbled => []
  }

  /** No later try of the same piece follows before `to`. */
  predicate IsLastTry(log: seq<Post>, i: nat, to: nat)
    requires i < to <= |log|
  {
    i + 1 == to || log[i + 1].attempt == 0
  }

  /** What one request contributes: the tokens its answer calls successful or invalid, those refused for
      good, and after the last try of a piece those still asked for. */
  function TellsOne(ns: Service, log: seq<Post>, i: nat, to: nat): Sent
    requires i < to <= |log|
  {
    var reply := ReplyTo(ns, log, i);
    Sent(if reply.Answered? then reply.successful else [],
         if reply.Answered? then reply.invalid else [],
         if IsLastTry(log, i, to) then AskedAgain(reply, log[i].tokens) else [],
         if reply.Status? && reply.code != 429 && reply.code < 500 then log[i].tokens else [])
  }

  /** What the requests from `from` on contribute together, in their order. */
  function Told(ns: Service, log: seq<Post>, from: nat, to: nat): Sent
    requires from <= to <= |log|
    decreases |log| - from
  {
    if from == to then Sent([], [], [], []) else Joined(TellsOne(ns, log, from, to), Told(ns, log, from + 1, to))
  }

  /** The tokens of the first tries. */
  function FirstTried(log: seq<Post>, from: nat, to: nat): multiset<string>
    requires from <= to <= |log|
    decreases |log| - from
  {
    if from == to then multiset{}
    else (if log[from].attempt == 0 then multiset(log[from].tokens) else multiset{}) + FirstTried(log, from + 1, to)
  }

  /** Since `before`, each piece is tried again, under its URL, with exactly what the answer before asked for,
      and as often as something is asked for and the retries allow. */
  ghost predicate Tried(ns: Service, maxRetries: int, before: seq<Post>, log: seq<Post>) {
    && before <= log
    && forall i :: |before| <= i < |log| ==> TriedWell(ns, maxRetries, |before|, log, i)
  }

  predicate TriedWell(ns: Service, maxRetries: int, from: nat, log: seq<Post>, i: nat)
    requires i < |log|
  {
    && log[i].attempt <= maxRetries
    && (log[i].attempt > 0 ==>
          && i > from && log[i].url == log[i - 1].url && log[i].attempt == log[i - 1].attempt + 1
          && log[i].tokens == AskedAgain(ReplyTo(ns, log, i - 1), log[i - 1].tokens) != [])
    && (IsLastTry(log, i, |log|) ==> AskedAgain(ReplyTo(ns, log, i), log[i].tokens) == [] || log[i].attempt == maxRetries)
  }

  /** A send reports exactly what the log tells, and tried every token; without any try allowed all tokens
      are left over. */
  ghost predicate Reported(ns: Service, maxRetries: int, before: seq<Post>, log: seq<Post>, sent: Sent, tokens: multiset<string>) {
    && before <= log
    && if maxRetries < 0 then log == before && sent == Sent([], [], sent.rateLimited, []) && multiset(sent.rateLimited) == tokens
       else sent == Told(ns, log, |before|, |log|) && FirstTried(log, |before|, |log|) == tokens
  }

  lemma JoinedAssociates(a: Sent, b: Sent, c: Sent)
    ensures Joined(Joined(a, b), c) == Joined(a, Joined(b, c))
  {
    assert a.successful + b.successful + c.successful == a.successful + (b.successful + c.successful);
    assert a.invalid + b.invalid + c.invalid == a.invalid + (b.invalid + c.invalid);
    assert a.rateLimited + b.rateLimited + c.rateLimited == a.rateLimited + (b.rateLimited + c.rateLimited);
    assert a.failed + b.failed + c.failed == a.failed + (b.failed + c.failed);
  }

  lemma JoinedNothing(a: Sent)
    ensures Joined(Sent([], [], [], []), a) == a && Joined(a, Sent([], [], [], [])) == a
  {
  }

  /** What later requests do not change, except whether the one before the cut was a last try. */
  lemma {:induction false} ToldFrame(ns: Service, log: seq<Post>, log': seq<Post>, from: nat, to: nat)
    requires from <= to <= |log| && log <= log'
    ensures Told(ns, log', from, to) == Told(ns, log, from, to) && FirstTried(log', from, to) == FirstTried(log, from, to)
    decreases |log| - from
  {
    if from < to {
      ToldFrame(ns, log, log', from + 1, to);
    }
  }

  /** The log tells piece by piece. */
  lemma {:induction false} ToldSplits(ns: Service, log: seq<Post>, from: nat, mid: nat, to: nat)
    requires from <= mid <= to <= |log| && (mid < to ==> log[mid].attempt == 0)
    ensures Told(ns, log, from, to) == Joined(Told(ns, log, from, mid), Told(ns, log, mid, to))
    ensures FirstTried(log, from, to) == FirstTried(log, from, mid) + FirstTried(log, mid, to)
    decreases mid - from
  {
    hide Joined, TellsOne;
    if from == mid {
      JoinedNothing(Told(ns, log, mid, to));
    } else {
      ToldSplits(ns, log, from + 1, mid, to);
      SameLastTry(ns, log, from, mid, to);
      JoinedAssociates(TellsOne(ns, log, from, mid), Told(ns, log, from + 1, mid), Told(ns, log, mid, to));
    }
  }

  lemma SameLastTry(ns: Service, log: seq<Post>, i: nat, mid: nat, to: nat)
    requires i < mid <= to <= |log| && (mid < to ==> log[mid].attempt == 0)
    ensures TellsOne(ns, log, i, mid) == TellsOne(ns, log, i, to)
  {
  }

  /** One more try of the same piece. */
  lemma {:induction false} ToldTry(ns: Service, log: seq<Post>, from: nat, n: nat)
    requires from < n < |log| && forall i :: from < i <= n ==> log[i].attempt > 0
    ensures var told, last := Told(ns, log, from, n), TellsOne(ns, log, n, n + 1);
      Told(ns, log, from, n + 1) == Sent(told.successful + last.successful, told.invalid + last.invalid, last.rateLimited,
                                         told.failed + last.failed)
    ensures FirstTried(log, from, n + 1) == FirstTried(log, from, n)
    decreases n - from
  {
    hide TellsOne, FirstTried;
    if from + 1 < n {
      ToldTry(ns, log, from + 1, n);
      TryBefore(ns, log, from, n);
      JoinedAppends(TellsOne(ns, log, from, n), Told(ns, log, from + 1, n), TellsOne(ns, log, n, n + 1));
    } else {
      SecondTry(ns, log, from);
    }
    LaterTries(log, from, n);
  }

  lemma SecondTry(ns: Service, log: seq<Post>, from: nat)
    requires from + 1 < |log| && log[from + 1].attempt > 0
    ensures var told, last := Told(ns, log, from, from + 1), TellsOne(ns, log, from + 1, from + 2);
      Told(ns, log, from, from + 2) == Sent(told.successful + last.successful, told.invalid + last.invalid, last.rateLimited,
                                            told.failed + last.failed)
  {
    hide Joined;
    assert Told(ns, log, from + 1, from + 1) == Sent([], [], [], []) && Told(ns, log, from + 2, from + 2) == Sent([], [], [], []);
    JoinedNothing(TellsOne(ns, log, from, from + 1));
    JoinedNothing(TellsOne(ns, log, from + 1, from + 2));
    assert Told(ns, log, from, from + 2) == Joined(TellsOne(ns, log, from, from + 2), TellsOne(ns, log, from + 1, from + 2));
    OneThenAnother(ns, log, from);
  }

  lemma OneThenAnother(ns: Service, log: seq<Post>, from: nat)
    requires from + 1 < |log| && log[from + 1].attempt > 0
    ensures var told, last := TellsOne(ns, log, from, from + 1), TellsOne(ns, log, from + 1, from + 2);
      Joined(TellsOne(ns, log, from, from + 2), last)
        == Sent(told.successful + last.successful, told.invalid + last.invalid, last.rateLimited, told.failed + last.failed)
  {
    hide AskedAgain;
    assert [] + TellsOne(ns, log, from + 1, from + 2).rateLimited == TellsOne(ns, log, from + 1, from + 2).rateLimited;
  }

  lemma JoinedAppends(a: Sent, told: Sent, last: Sent)
    requires a.rateLimited == []
    ensures var all := Joined(a, told);
      Joined(a, Sent(told.successful + last.successful, told.invalid + last.invalid, last.rateLimited, told.failed + last.failed))
        == Sent(all.successful + last.successful, all.invalid + last.invalid, last.rateLimited, all.failed + last.failed)
  {
    assert a.successful + (told.successful + last.successful) == a.successful + told.successful + last.successful;
    assert a.invalid + (told.invalid + last.invalid) == a.invalid + told.invalid + last.invalid;
    assert a.failed + (told.failed + last.failed) == a.failed + told.failed + last.failed;
    assert a.rateLimited + last.rateLimited == last.rateLimited;
  }

  lemma {:induction false} LaterTries(log: seq<Post>, from: nat, n: nat)
    requires from < n < |log| && log[n].attempt > 0
    ensures FirstTried(log, from, n + 1) == FirstTried(log, from, n)
    decreases n - from
  {
    assert FirstTried(log, n, n) == FirstTried(log, n + 1, n + 1) == multiset{};
    if from + 1 < n { LaterTries(log, from + 1, n); }
  }

  lemma TryBefore(ns: Service, log: seq<Post>, from: nat, n: nat)
    requires from + 1 < n < |log| && log[from + 1].attempt > 0
    ensures TellsOne(ns, log, from, n) == TellsOne(ns, log, from, n + 1) && TellsOne(ns, log, from, n).rateLimited == []
  {
  }

  // ---------- One piece ----------

  /** A try of a piece follows the one before it. */
  predicate Follows(ns: Service, maxRetries: int, from: nat, log: seq<Post>, i: nat)
    requires i < |log|
  {
    && log[i].attempt <= maxRetries
    && (log[i].attempt > 0 ==>
          && i > from && log[i].url == log[i - 1].url && log[i].attempt == log[i - 1].attempt + 1
          && log[i].tokens == AskedAgain(ReplyTo(ns, log, i - 1), log[i - 1].tokens) != [])
  }

  /** After some tries of one piece: what they told so far, and what is still asked for. */
  ghost predicate InPiece(ns: Service, maxRetries: int, before: seq<Post>, log: seq<Post>, url: string, tokens: seq<string>,
      attempt: nat, done: Outcome, pending: seq<string>)
  {
    && before <= log && |log| == |before| + attempt
    && (forall i :: |before| <= i < |log| ==> log[i].attempt == i - |before| && Follows(ns, maxRetries, |before|, log, i))
    && if attempt == 0 then pending == tokens && done == Outcome([], [], [], [])
       else && log[|log| - 1].url == url && pending == AskedAgain(ReplyTo(ns, log, |log| - 1), log[|log| - 1].tokens)
            && Told(ns, log, |before|, |log|) == Sent(done.successful, done.invalid, pending, done.failed)
            && FirstTried(log, |before|, |log|) == multiset(tokens)
  }

  lemma OutcomeTells(ns: Service, log: seq<Post>)
    requires log != []
    ensures var post := log[|log| - 1];
      var o, told := PostToNs(ns(|log| - 1, post.url, post.tokens), post.tokens), TellsOne(ns, log, |log| - 1, |log|);
      && (o.Some? ==> told == Sent(o.value.successful, o.value.invalid, o.value.retry, o.value.failed))
      && (o.Some? ==> o.value.retry == AskedAgain(ReplyTo(ns, log, |log| - 1), post.tokens))
  {
  }

  lemma FirstTold(ns: Service, log: seq<Post>, n: nat)
    requires |log| == n + 1 && log[n].attempt == 0
    ensures Told(ns, log, n, n + 1) == TellsOne(ns, log, n, n + 1) && FirstTried(log, n, n + 1) == multiset(log[n].tokens)
  {
    hide TellsOne;
    JoinedNothing(TellsOne(ns, log, n, n + 1));
    assert Told(ns, log, n + 1, n + 1) == Sent([], [], [], []) && FirstTried(log, n + 1, n + 1) == multiset{};
  }

  lemma FollowsFrame(ns: Service, maxRetries: int, from: nat, log: seq<Post>, log': seq<Post>, i: nat)
    requires i < |log| && log <= log' && Follows(ns, maxRetries, from, log, i)
    ensures Follows(ns, maxRetries, from, log', i)
  {
  }

  lemma NextFollows(ns: Service, maxRetries: int, before: seq<Post>, log: seq<Post>, url: string, tokens: seq<string>,
      attempt: nat, done: Outcome, pending: seq<string>)
    requires InPiece(ns, maxRetries, before, log, url, tokens, attempt, done, pending) && attempt <= maxRetries && pending != []
    ensures var log' := log + [Post(url, pending, attempt)];
      forall i :: |before| <= i < |log'| ==> log'[i].attempt == i - |before| && Follows(ns, maxRetries, |before|, log', i)
  {
    hide Told, FirstTried, AskedAgain, Follows;
    var log' := log + [Post(url, pending, attempt)];
    forall i | |before| <= i < |log'| ensures log'[i].attempt == i - |before| && Follows(ns, maxRetries, |before|, log', i) {
      if i < |log| {
        FollowsFrame(ns, maxRetries, |before|, log, log', i);
      } else {
        NewestFollows(ns, maxRetries, before, log, url, tokens, attempt, done, pending);
      }
    }
  }

  lemma NewestFollows(ns: Service, maxRetries: int, before: seq<Post>, log: seq<Post>, url: string, tokens: seq<string>,
      attempt: nat, done: Outcome, pending: seq<string>)
    requires InPiece(ns, maxRetries, before, log, url, tokens, attempt, done, pending) && attempt <= maxRetries && pending != []
    ensures Follows(ns, maxRetries, |before|, log + [Post(url, pending, attempt)], |log|)
  {
    hide Told, FirstTried, AskedAgain;
    if attempt > 0 { assert log[|log| - 1].attempt == attempt - 1; }
  }

  lemma PieceOn(ns: Service, maxRetries: int, before: seq<Post>, log: seq<Post>, url: string, tokens: seq<string>,
      attempt: nat, done: Outcome, pending: seq<string>)
    requires InPiece(ns, maxRetries, before, log, url, tokens, attempt, done, pending) && attempt <= maxRetries && pending != []
    ensures var o := PostToNs(ns(|log|, url, pending), pending);
      o.Some? ==> InPiece(ns, maxRetries, before, log + [Post(url, pending, attempt)], url, tokens, attempt + 1,
                          Then(done, o.value), o.value.retry)
  {
    hide Told, FirstTried, TellsOne, AskedAgain, PostToNs, Follows;
    var log' := log + [Post(url, pending, attempt)];
    NextFollows(ns, maxRetries, before, log, url, tokens, attempt, done, pending);
    OutcomeTells(ns, log');
    if attempt == 0 {
      FirstTold(ns, log', |log|);
    } else {
      ToldFrame(ns, log, log', |before|, |log|);
      ToldTry(ns, log', |before|, |log|);
    }
  }

  lemma PieceBegins(ns: Service, maxRetries: int, log: seq<Post>, url: string, tokens: seq<string>)
    ensures InPiece(ns, maxRetries, log, log, url, tokens, 0, Outcome([], [], [], []), tokens)
  {
  }

  lemma PieceTried(ns: Service, maxRetries: int, before: seq<Post>, log: seq<Post>)
    requires before <= log
    requires forall i :: |before| <= i < |log| ==> log[i].attempt == i - |before| && Follows(ns, maxRetries, |before|, log, i)
    requires |before| < |log| ==>
      var last := |log| - 1;
      AskedAgain(ReplyTo(ns, log, last), log[last].tokens) == [] || log[last].attempt == maxRetries
    ensures Tried(ns, maxRetries, before, log)
  {
    hide AskedAgain;
    forall i | |before| <= i < |log| ensures TriedWell(ns, maxRetries, |before|, log, i) {
      assert Follows(ns, maxRetries, |before|, log, i);
    }
  }

  lemma PieceEnds(ns: Service, maxRetries: int, before: seq<Post>, log: seq<Post>, url: string, tokens: seq<string>,
      attempt: nat, done: Outcome, pending: seq<string>)
    requires InPiece(ns, maxRetries, before, log, url, tokens, attempt, done, pending) && (attempt > maxRetries || pending == [])
    ensures Reported(ns, maxRetries, before, log, Sent(done.successful, done.invalid, pending, done.failed), multiset(tokens))
    ensures Tried(ns, maxRetries, before, log)
  {
    hide AskedAgain;
    PieceTried(ns, maxRetries, before, log);
    if attempt > 0 { assert Follows(ns, maxRetries, |before|, log, |log| - 1); }
  }

  /** A garbled answer asks for nothing. */
  lemma PieceFails(ns: Service, maxRetries: int, before: seq<Post>, log: seq<Post>, url: string, tokens: seq<string>,
      attempt: nat, done: Outcome, pending: seq<string>)
    requires InPiece(ns, maxRetries, before, log, url, tokens, attempt, done, pending) && attempt <= maxRetries && pending != []
    requires ns(|log|, url, pending).Garbled?
    ensures Tried(ns, maxRetries, before, log + [Post(url, pending, attempt)])
  {
    hide Told, FirstTried;
    NextFollows(ns, maxRetries, before, log, url, tokens, attempt, done, pending);
    PieceTried(ns, maxRetries, before, log + [Post(url, pending, attempt)]);
  }

  lemma TriedOn(ns: Service, maxRetries: int, log0: seq<Post>, log1: seq<Post>, log2: seq<Post>)
    requires Tried(ns, maxRetries, log0, log1) && Tried(ns, maxRetries, log1, log2)
    ensures Tried(ns, maxRetries, log0, log2)
  {
    forall i | |log0| <= i < |log2| ensures TriedWell(ns, maxRetries, |log0|, log2, i) {
      if |log1| < |log2| { assert TriedWell(ns, maxRetries, |log1|, log2, |log1|); }
      if i < |log1| {
        assert TriedWell(ns, maxRetries, |log0|, log1, i);
      } else {
        assert TriedWell(ns, maxRetries, |log1|, log2, i);
      }
    }
  }

  lemma ReportedOn(ns: Service, maxRetries: int, log0: seq<Post>, log1: seq<Post>, log2: seq<Post>, a: Sent, b: Sent,
      tokens: multiset<string>, more: multiset<string>)
    requires Reported(ns, maxRetries, log0, log1, a, tokens) && Reported(ns, maxRetries, log1, log2, b, more)
    requires Tried(ns, maxRetries, log1, log2)
    ensures Reported(ns, maxRetries, log0, log2, Joined(a, b), tokens + more)
  {
    hide TellsOne;
    if maxRetries >= 0 {
      if |log1| < |log2| { assert TriedWell(ns, maxRetries, |log1|, log2, |log1|); }
      ToldFrame(ns, log1, log2, |log0|, |log1|);
      ToldSplits(ns, log2, |log0|, |log1|, |log2|);
    }
  }

  /** Since `before`, only posts to this URL, of some of these tokens. */
  ghost predicate PostedTo(ns: Service, before: seq<Post>, log: seq<Post>, url: string,
      tokens: multiset<string>, size: nat) {
    && before <= log
    && forall i :: |before| <= i < |log| ==>
         log[i].url == url && (Accounts(ns) ==> multiset(log[i].tokens) <= tokens && |log[i].tokens| <= size)
  }

  /** Since `before`, each post was to the URL of a token, of some of that URL's own tokens. */
  ghost predicate PostedToOwn(ns: Service, before: seq<Post>, log: seq<Post>, tokens: seq<Token>, size: nat) {
    && before <= log
    && forall i :: |before| <= i < |log| ==>
         && log[i].url in KeySet(tokens, UrlOf)
         && (Accounts(ns) ==> multiset(log[i].tokens) <= multiset(Strings(Having(tokens, UrlOf, log[i].url))) && |log[i].tokens| <= size)
  }

  /** No answer since `before` was garbled; a send that fails ends with one that was. */
  ghost predicate EndsWell(ns: Service, before: seq<Post>, log: seq<Post>, ok: bool) {
    && before <= log
    && (forall i :: |before| <= i < (if ok then |log| else |log| - 1) ==> !ns(i, log[i].url, log[i].tokens).Garbled?)
    && (!ok ==> |before| < |log| && ns(|log| - 1, log[|log| - 1].url, log[|log| - 1].tokens).Garbled?)
  }

  lemma EndsWellOn(ns: Service, log0: seq<Post>, log1: seq<Post>, log2: seq<Post>, ok: bool)
    requires EndsWell(ns, log0, log1, true) && EndsWell(ns, log1, log2, ok)
    ensures EndsWell(ns, log0, log2, ok)
  {
  }

  /** The tokens of some URLs have been sent, or sending them ended with a garbled answer. */
  ghost predicate Dispatched(ns: Service, before: seq<Post>, log: seq<Post>, tokens: seq<Token>, size: nat,
      maxRetries: int, urls: set<string>, aggregate: Sent, ok: bool)
    requires size >= 1
  {
    && before <= log && |log| - |before| <= PiecesOf(tokens, size, urls) * Tries(maxRetries)
    && PostedToOwn(ns, before, log, tokens, size) && EndsWell(ns, before, log, ok) && Tried(ns, maxRetries, before, log)
    && (ok && Accounts(ns) ==> All(aggregate) == multiset(Strings(Under(tokens, UrlOf, urls))))
    && (ok ==> Reported(ns, maxRetries, before, log, aggregate, multiset(Strings(Under(tokens, UrlOf, urls)))))
  }

  lemma DispatchedMeans(ns: Service, before: seq<Post>, log: seq<Post>, tokens: seq<Token>, size: nat,
      maxRetries: int, urls: set<string>, aggregate: Sent, ok: bool)
    requires size >= 1 && Dispatched(ns, before, log, tokens, size, maxRetries, urls, aggregate, ok)
    ensures |log| - |before| <= PiecesOf(tokens, size, urls) * Tries(maxRetries)
    ensures PostedToOwn(ns, before, log, tokens, size) && EndsWell(ns, before, log, ok) && Tried(ns, maxRetries, before, log)
    ensures ok && Accounts(ns) ==> All(aggregate) == multiset(Strings(Under(tokens, UrlOf, urls)))
    ensures ok ==> Reported(ns, maxRetries, before, log, aggregate, multiset(Strings(Under(tokens, UrlOf, urls))))
  {
    hide Accounts, All, Strings, Under, PostedToOwn, EndsWell, Tried, Reported;
  }

  lemma NothingDispatched(ns: Service, log: seq<Post>, tokens: seq<Token>, size: nat, maxRetries: int)
    requires size >= 1
    ensures Dispatched(ns, log, log, tokens, size, maxRetries, SetOf([]), Sent([], [], [], []), true) && SetOf([]) == {}
  {
    hide Accounts, Tried, Reported;
    NothingReported(ns, maxRetries, log);
    NothingSent();
    NothingUnder(tokens);
    NothingPostedYet(ns, log, tokens, size);
  }

  lemma DispatchOneMore(ns: Service, before: seq<Post>, log: seq<Post>, log2: seq<Post>, tokens: seq<Token>,
      size: nat, maxRetries: int, urls: set<string>, aggregate: Sent, url: string, result: Option<Sent>)
    requires size >= 1 && Dispatched(ns, before, log, tokens, size, maxRetries, urls, aggregate, true)
    requires url !in urls && url in KeySet(tokens, UrlOf)
    requires PostedTo(ns, log, log2, url, multiset(Strings(Having(tokens, UrlOf, url))), size)
    requires EndsWell(ns, log, log2, result.Some?) && Tried(ns, maxRetries, log, log2)
    requires result.Some? ==> Reported(ns, maxRetries, log, log2, result.value, multiset(Strings(Having(tokens, UrlOf, url))))
    requires |log2| - |log| <= Pieces(|Having(tokens, UrlOf, url)|, size) * Tries(maxRetries)
    requires result.Some? && Accounts(ns) ==> All(result.value) == multiset(Strings(Having(tokens, UrlOf, url)))
    ensures Dispatched(ns, before, log2, tokens, size, maxRetries, urls + {url},
                       if result.Some? then Joined(aggregate, result.value) else aggregate, result.Some?)
  {
    hide Accounts, All, Strings, Having, Under, KeySet, PostedTo, PostedToOwn, EndsWell, Pieces, PiecesOf, Tries;
    hide Tried, Reported, Joined;
    PostedOwnOn(ns, before, log, log2, url, tokens, size);
    assert before <= log2 by { LogsGrow(ns, before, log2, tokens, size); }
    EndsWellOn(ns, before, log, log2, result.Some?);
    OneMoreUrl(tokens, size, urls, url, Tries(maxRetries));
    StringsUnderOneMore(tokens, urls, url);
    TriedOn(ns, maxRetries, before, log, log2);
    if result.Some? {
      JoinedAdds(aggregate, result.value);
      ReportedOn(ns, maxRetries, before, log, log2, aggregate, result.value,
                 multiset(Strings(Under(tokens, UrlOf, urls))), multiset(Strings(Having(tokens, UrlOf, url))));
    }
  }

  lemma LogsGrow(ns: Service, before: seq<Post>, log: seq<Post>, tokens: seq<Token>, size: nat)
    requires PostedToOwn(ns, before, log, tokens, size)
    ensures before <= log
  {
    hide Accounts;
  }

  lemma NothingReported(ns: Service, maxRetries: int, log: seq<Post>)
    ensures Tried(ns, maxRetries, log, log) && Reported(ns, maxRetries, log, log, Sent([], [], [], []), multiset([]))
  {
  }

  lemma NothingPosted(ns: Service, log: seq<Post>, url: string, tokens: multiset<string>, size: nat)
    ensures PostedTo(ns, log, log, url, tokens, size) && EndsWell(ns, log, log, true)
  {
  }

  lemma PostedOn(ns: Service, log0: seq<Post>, log1: seq<Post>, log2: seq<Post>, url: string, piece: multiset<string>,
      n: nat, tokens: multiset<string>, size: nat)
    requires PostedTo(ns, log0, log1, url, tokens, size)
    requires PostedTo(ns, log1, log2, url, piece, n) && piece <= tokens && n <= size
    ensures PostedTo(ns, log0, log2, url, tokens, size)
  {
    hide Accounts;
  }

  lemma OnePost(ns: Service, log0: seq<Post>, log1: seq<Post>, url: string, pending: seq<string>, attempt: nat,
      tokens: seq<string>)
    requires PostedTo(ns, log0, log1, url, multiset(tokens), |tokens|) && EndsWell(ns, log0, log1, true)
    requires Accounts(ns) ==> multiset(pending) <= multiset(tokens)
    ensures var log2 := log1 + [Post(url, pending, attempt)];
      && PostedTo(ns, log0, log2, url, multiset(tokens), |tokens|)
      && EndsWell(ns, log0, log2, !ns(|log1|, url, pending).Garbled?)
  {
    hide Accounts;
    if Accounts(ns) {
      assert |multiset(pending)| <= |multiset(tokens)| by { SmallerMultiset(multiset(pending), multiset(tokens)); }
    }
  }

  lemma SmallerMultiset<T>(a: multiset<T>, b: multiset<T>)
    requires a <= b
    ensures |a| <= |b|
  {
    assert b == a + (b - a);
  }

  class NotificationSender {
    const ns: Service
    const maxTokensPerRequest: nat
    const dailyLimit: int
    const maxRetries: int
    ghost var log: seq<Post>          // every request made
    var counts: map<string, nat>      // today's messages per user

    constructor (ns: Service, maxTokensPerRequest: nat, dailyLimit: int, maxRetries: int)
      ensures this.ns == ns && this.maxTokensPerRequest == maxTokensPerRequest
      ensures this.dailyLimit == dailyLimit && this.maxRetries == maxRetries
      ensures log == [] && counts == map[]
    {
      this.ns, this.maxTokensPerRequest, this.dailyLimit, this.maxRetries := ns, maxTokensPerRequest, dailyLimit, maxRetries;
      log, counts := [], map[];
    }

    /** The k-th request and its answer. */
    method Request(k: nat, url: string, tokens: seq<string>, ghost attempt: nat) returns (reply: Reply)
      requires k == |log|
      modifies this`log
      ensures log == old(log) + [Post(url, tokens, attempt)] && reply == ns(k, url, tokens)
    {
      log := log + [Post(url, tokens, attempt)];
      return ns(k, url, tokens);
    }

    method PostWithRetry(posts: nat, url: string, tokens: seq<string>) returns (sent: Option<Sent>, made: nat)
      requires posts == |log|
      modifies this`log
      ensures (sent, made) == Attempts(ns, posts, url, tokens, 0, maxRetries) && made == |log|
      ensures PostedTo(ns, old(log), log, url, multiset(tokens), |tokens|) && EndsWell(ns, old(log), log, sent.Some?)
      ensures Tried(ns, maxRetries, old(log), log)
      ensures sent.Some? ==> Reported(ns, maxRetries, old(log), log, sent.value, multiset(tokens))
    {
      hide Attempts, PostToNs, Accounts, PostedTo, EndsWell, InPiece, Reported, Tried;
      var done := Outcome([], [], [], []);
      var pending := tokens;
      var attempt: nat := 0;
      made := posts;
      ghost var all := Attempts(ns, posts, url, tokens, 0, maxRetries);
      if all.0.Some? { PlusNothing(done, all.0.value); }
      NothingPosted(ns, log, url, multiset(tokens), |tokens|);
      PieceBegins(ns, maxRetries, log, url, tokens);
      while attempt <= maxRetries && pending != []
        invariant made == |log|
        invariant PostedTo(ns, old(log), log, url, multiset(tokens), |tokens|) && EndsWell(ns, old(log), log, true)
        invariant Accounts(ns) ==> multiset(pending) <= multiset(tokens)
        invariant InPiece(ns, maxRetries, old(log), log, url, tokens, attempt, done, pending)
        invariant var (rest, n) := Attempts(ns, made, url, pending, attempt, maxRetries);
          all == (if rest.None? then None else Some(Plus(done, rest.value)), n)
        decreases maxRetries - attempt
      {
        AttemptOnce(ns, made, url, pending, attempt, maxRetries);
        OnePost(ns, old(log), log, url, pending, attempt, tokens);
        PieceOn(ns, maxRetries, old(log), log, url, tokens, attempt, done, pending);
        if ns(made, url, pending).Garbled? { PieceFails(ns, maxRetries, old(log), log, url, tokens, attempt, done, pending); }
        var reply := Request(made, url, pending, attempt);
        var outcome := PostToNs(reply, pending);
        RepliesShrink(ns, made, url, pending);
        ghost var (rest, _) := Attempts(ns, made + 1, url, if outcome.Some? then outcome.value.retry else [], attempt + 1, maxRetries);
        made := made + 1;
        if outcome.None? { return None, made; }
        if rest.Some? { PlusThen(done, outcome.value, rest.value); }
        done := Then(done, outcome.value);
        pending := outcome.value.retry;
        attempt := attempt + 1;
      }
      AttemptsOver(ns, made, url, pending, attempt, maxRetries);
      PieceEnds(ns, maxRetries, old(log), log, url, tokens, attempt, done, pending);
      sent := Some(Sent(done.successful, done.invalid, pending, done.failed));
      assert sent.value == Plus(done, Sent([], [], pending, []));
    }

    /** All chunks of one URL: at most the allowed tries for each piece. */
    method SendChunks(posts: nat, url: string, tokens: seq<string>) returns (sent: Option<Sent>, made: nat)
      requires maxTokensPerRequest >= 1 && posts == |log|
      modifies this`log
      ensures made == |log| && made - posts <= Pieces(|tokens|, maxTokensPerRequest) * Tries(maxRetries)
      ensures PostedTo(ns, old(log), log, url, multiset(tokens), maxTokensPerRequest)
      ensures EndsWell(ns, old(log), log, sent.Some?)
      ensures sent.Some? && Accounts(ns) ==> All(sent.value) == multiset(tokens)
      ensures Tried(ns, maxRetries, old(log), log)
      ensures sent.Some? ==> Reported(ns, maxRetries, old(log), log, sent.value, multiset(tokens))
    {
      hide Accounts, Attempts, All, PostedTo, EndsWell, Pieces, Tries, Tried, Reported, Joined;
      var chunks := Chunk(tokens, maxTokensPerRequest);
      var aggregate := Sent([], [], [], []);
      made := posts;
      NothingSent();
      NothingPosted(ns, log, url, multiset(tokens), maxTokensPerRequest);
      NothingReported(ns, maxRetries, log);
      for i := 0 to |chunks|
        invariant made == |log| && made - posts <= i * Tries(maxRetries)
        invariant PostedTo(ns, old(log), log, url, multiset(tokens), maxTokensPerRequest)
        invariant EndsWell(ns, old(log), log, true)
        invariant Accounts(ns) ==> All(aggregate) == multiset(Flat(chunks[..i]))
        invariant Tried(ns, maxRetries, old(log), log)
        invariant Reported(ns, maxRetries, old(log), log, aggregate, multiset(Flat(chunks[..i])))
      {
        AttemptsIfAccounted(ns, made, url, chunks[i], 0, maxRetries);
        AttemptsAreBounded(ns, made, url, chunks[i], 0, maxRetries);
        ghost var log1 := log;
        var result;
        result, made := PostWithRetry(made, url, chunks[i]);
        PieceOfFlat(chunks, i);
        PostedOn(ns, old(log), log1, log, url, multiset(chunks[i]), |chunks[i]|, multiset(tokens), maxTokensPerRequest);
        EndsWellOn(ns, old(log), log1, log, result.Some?);
        OneMoreTimes(i, |chunks|, Tries(maxRetries));
        TriedOn(ns, maxRetries, old(log), log1, log);
        if result.None? { return None, made; }
        ReportedOn(ns, maxRetries, old(log), log1, log, aggregate, result.value, multiset(Flat(chunks[..i])), multiset(chunks[i]));
        JoinedAdds(aggregate, result.value);
        aggregate := Joined(aggregate, result.value);
        assert chunks[..i + 1][..i] == chunks[..i];
      }
      assert chunks[..|chunks|] == chunks;
      return Some(aggregate), made;
    }

    /** Every token is posted under its own URL only, in requests within the limit and at most the allowed
        tries for each; a piece is tried again as the answers ask.  The aggregate is what the answers tell:
        the successful and the invalid tokens they name, the tokens refused for good, and those still asked
        for after the last try of a piece; with an honest service these are the tokens given, each as often.
        It fails exactly when an answer does not parse. */
    method DispatchTokens(posts: nat, tokens: seq<Token>) returns (sent: Option<Sent>, made: nat)
      requires maxTokensPerRequest >= 1 && posts == |log|
      modifies this`log
      ensures made == |log| && made - posts <= PiecesByUrl(tokens, maxTokensPerRequest) * Tries(maxRetries)
      ensures PostedToOwn(ns, old(log), log, tokens, maxTokensPerRequest) && EndsWell(ns, old(log), log, sent.Some?)
      ensures Tried(ns, maxRetries, old(log), log)
      ensures sent.Some? ==> Reported(ns, maxRetries, old(log), log, sent.value, multiset(Strings(tokens)))
      ensures sent.Some? && Accounts(ns) ==> All(sent.value) == multiset(Strings(tokens))
    {
      hide Accounts, All, Strings, Having, Under, SetOf, NoRepeats;
      hide KeySet, PostedTo, PostedToOwn, EndsWell, Pieces, Tries, Dispatched, Tried, Reported;
      var order, byUrl := GroupBy(tokens, UrlOf);
      var aggregate := Sent([], [], [], []);
      made := posts;
      NothingDispatched(ns, log, tokens, maxTokensPerRequest, maxRetries);
      for i := 0 to |order|
        invariant made == |log| && SetOf(order[..i]) <= KeySet(tokens, UrlOf)
        invariant Dispatched(ns, old(log), log, tokens, maxTokensPerRequest, maxRetries, SetOf(order[..i]), aggregate, true)
      {
        var url := order[i];
        NextKey(order, i);
        ghost var log1 := log;
        var result;
        result, made := SendChunks(made, url, Strings(byUrl[url]));
        DispatchOneMore(ns, old(log), log1, log, tokens, maxTokensPerRequest, maxRetries, SetOf(order[..i]),
                        aggregate, url, result);
        SomeUrls(tokens, maxTokensPerRequest, SetOf(order[..i + 1]), Tries(maxRetries));
        if result.None? {
          DispatchedMeans(ns, old(log), log, tokens, maxTokensPerRequest, maxRetries, SetOf(order[..i + 1]), aggregate, false);
          return None, made;
        }
        aggregate := Joined(aggregate, result.value);
      }
      assert order[..|order|] == order;
      DispatchedMeans(ns, old(log), log, tokens, maxTokensPerRequest, maxRetries, SetOf(order), aggregate, true);
      UnderAll(tokens, UrlOf, SetOf(order));
      return Some(aggregate), made;
    }

    method ConsumeDailyQuota(user: string) returns (allowed: bool)
      modifies this`counts
      ensures counts == old(counts)[user := Count(old(counts), user) + 1]
      ensures allowed <==> counts[user] <= dailyLimit
    {
      counts := counts[user := Count(counts, user) + 1];
      return counts[user] <= dailyLimit;
    }

    /** One message per user is charged, whatever the number of devices: a user within the limit keeps all
        tokens, any other loses all of them and is counted once. */
    method ApplyDailyLimit(tokens: seq<Token>) returns (accepted: seq<Token>, skipped: nat)
      modifies this`counts
      ensures Charged(old(counts), counts, dailyLimit, tokens, KeySet(tokens, UserOf), accepted, skipped)
    {
      hide Charged, SetOf, NoRepeats, KeySet, Having;
      var order, byUser := GroupBy(tokens, UserOf);
      accepted, skipped := [], 0;
      NobodyCharged(counts, dailyLimit, tokens);
      for i := 0 to |order|
        invariant Charged(old(counts), counts, dailyLimit, tokens, SetOf(order[..i]), accepted, skipped)
      {
        var user := order[i];
        NextKey(order, i);
        ghost var counts1, accepted1, skipped1 := counts, accepted, skipped;
        var allowed := ConsumeDailyQuota(user);
        if allowed {
          accepted := accepted + byUser[user];
        } else {
          skipped := skipped + 1;
        }
        ChargeOne(old(counts), counts1, dailyLimit, tokens, SetOf(order[..i]), accepted1, skipped1, user);
      }
      assert order[..|order|] == order;
    }
  }

  /** `users` have been charged: those within the limit keep their tokens, the others are counted. */
  ghost predicate Charged(counts0: map<string, nat>, counts: map<string, nat>, limit: int, tokens: seq<Token>,
      users: set<string>, accepted: seq<Token>, skipped: nat) {
    && multiset(accepted) == multiset(Under(tokens, UserOf, AllowedUsers(counts0, limit, users)))
    && skipped == |users| - |AllowedUsers(counts0, limit, users)|
    && forall u :: Count(counts, u) == Count(counts0, u) + (if u in users then 1 else 0)
  }

  lemma NobodyCharged(counts: map<string, nat>, limit: int, tokens: seq<Token>)
    ensures Charged(counts, counts, limit, tokens, SetOf([]), [], 0)
  {
    UnderNone(tokens, UserOf);
    assert SetOf([]) == {} && AllowedUsers(counts, limit, {}) == {};
  }

  lemma ChargeOne(counts0: map<string, nat>, counts: map<string, nat>, limit: int, tokens: seq<Token>,
      users: set<string>, accepted: seq<Token>, skipped: nat, user: string)
    requires Charged(counts0, counts, limit, tokens, users, accepted, skipped) && user !in users
    ensures var n := Count(counts, user) + 1;
      Charged(counts0, counts[user := n], limit, tokens, users + {user},
              if n <= limit then accepted + Having(tokens, UserOf, user) else accepted, if n <= limit then skipped else skipped + 1)
  {
    hide Under, Having;
    var before, after := AllowedUsers(counts0, limit, users), AllowedUsers(counts0, limit, users + {user});
    if Count(counts, user) + 1 <= limit {
      assert after == before + {user};
      UnderOneMore(tokens, UserOf, before, user);
    } else {
      assert after == before;
    }
  }

  /** One send of a day: the tokens it was asked for, those it kept, and the users it skipped. */
  datatype Send = Send(tokens: seq<Token>, accepted: seq<Token>, skipped: nat)

  /** A day of the sender: each send charges its own users on top of the counters it finds. */
  ghost predicate IsDay(counts: seq<map<string, nat>>, sends: seq<Send>, limit: int) {
    && |counts| == |sends| + 1 && counts[0] == map[]
    && forall i :: 0 <= i < |sends| ==>
         Charged(counts[i], counts[i + 1], limit, sends[i].tokens, KeySet(sends[i].tokens, UserOf), sends[i].accepted, sends[i].skipped)
  }

  predicate Keeps(tokens: seq<Token>, user: string) {
    exists t <- tokens :: t.user == user
  }

  /** In how many of the first `n` sends the user had tokens, and in how many they were kept. */
  function TimesAddressed(sends: seq<Send>, user: string, n: nat): nat
    requires n <= |sends|
  {
    if n == 0 then 0 else TimesAddressed(sends, user, n - 1) + (if Keeps(sends[n - 1].tokens, user) then 1 else 0)
  }

  function TimesAccepted(sends: seq<Send>, user: string, n: nat): nat
    requires n <= |sends|
  {
    if n == 0 then 0 else TimesAccepted(sends, user, n - 1) + (if Keeps(sends[n - 1].accepted, user) then 1 else 0)
  }

  lemma {:induction false} KeysAreUsers(tokens: seq<Token>, user: string)
    ensures user in KeySet(tokens, UserOf) <==> Keeps(tokens, user)
  {
    if tokens != [] {
      var rest, last := tokens[..|tokens| - 1], tokens[|tokens| - 1];
      KeysAreUsers(rest, user);
      assert tokens == rest + [last];
    }
  }

  lemma {:induction false} UnderHas(tokens: seq<Token>, users: set<string>, user: string)
    ensures Keeps(Under(tokens, UserOf, users), user) <==> Keeps(tokens, user) && user in users
  {
    if tokens != [] {
      var rest, last := tokens[..|tokens| - 1], tokens[|tokens| - 1];
      UnderHas(rest, users, user);
      assert tokens == rest + [last];
      assert last in tokens;
    }
  }

  lemma KeptAlike(a: seq<Token>, b: seq<Token>, user: string)
    requires multiset(a) == multiset(b)
    ensures Keeps(a, user) <==> Keeps(b, user)
  {
    if t :| t in a && t.user == user { assert t in multiset(a); assert t in b; }
    if t :| t in b && t.user == user { assert t in multiset(b); assert t in a; }
  }

  /** One send keeps a user's tokens exactly when there are any and the user is within the limit. */
  lemma SendKeepsIff(counts0: map<string, nat>, counts: map<string, nat>, limit: int, s: Send, user: string)
    requires Charged(counts0, counts, limit, s.tokens, KeySet(s.tokens, UserOf), s.accepted, s.skipped)
    ensures Keeps(s.accepted, user) <==> Keeps(s.tokens, user) && Count(counts0, user) + 1 <= limit
    ensures Count(counts, user) == Count(counts0, user) + (if Keeps(s.tokens, user) then 1 else 0)
  {
    hide Keeps, KeySet, Under;
    var allowed := AllowedUsers(counts0, limit, KeySet(s.tokens, UserOf));
    KeptAlike(s.accepted, Under(s.tokens, UserOf, allowed), user);
    UnderHas(s.tokens, allowed, user);
    KeysAreUsers(s.tokens, user);
  }

  /** Over a day of sends a user is sent the first `limit` of the messages addressed to them and no more. */
  lemma {:induction false} DailyLimitHolds(counts: seq<map<string, nat>>, sends: seq<Send>, limit: int,
      user: string, n: nat)
    requires IsDay(counts, sends, limit) && n <= |sends|
    ensures Count(counts[n], user) == TimesAddressed(sends, user, n)
    ensures var addressed, most := TimesAddressed(sends, user, n), if limit < 0 then 0 else limit;
      TimesAccepted(sends, user, n) == if addressed < most then addressed else most
  {
    hide Charged, Keeps;
    if n > 0 {
      DailyLimitHolds(counts, sends, limit, user, n - 1);
      SendKeepsIff(counts[n - 1], counts[n], limit, sends[n - 1], user);
    }
  }

  // ---------- Counting requests ----------

  ghost function PiecesAt(tokens: seq<Token>, size: nat): string -> int
    requires size >= 1
  {
    (url: string) => Pieces(|Having(tokens, UrlOf, url)|, size)
  }

  /** The requests of the first try, over some URLs and over all. */
  ghost function PiecesOf(tokens: seq<Token>, size: nat, urls: set<string>): int
    requires size >= 1
  {
    Sum(urls, PiecesAt(tokens, size))
  }

  ghost function PiecesByUrl(tokens: seq<Token>, size: nat): int
    requires size >= 1
  {
    PiecesOf(tokens, size, KeySet(tokens, UrlOf))
  }

  lemma OneMoreTimes(i: nat, n: nat, k: nat)
    requires i < n
    ensures i * k + k == (i + 1) * k && (i + 1) * k <= n * k
  {
    assert n * k - (i + 1) * k == (n - i - 1) * k;
  }

  lemma TimesSum(a: int, b: int, k: int)
    ensures (a + b) * k == b * k + a * k
  {
  }

  lemma OneMoreUrl(tokens: seq<Token>, size: nat, urls: set<string>, url: string, k: nat)
    requires size >= 1 && url !in urls
    ensures PiecesOf(tokens, size, urls + {url}) * k == PiecesOf(tokens, size, urls) * k + Pieces(|Having(tokens, UrlOf, url)|, size) * k
  {
    hide Having, Pieces;
    var f := PiecesAt(tokens, size);
    SumInsert(urls, f, url);
    TimesSum(f(url), Sum(urls, f), k);
  }

  lemma SomeUrls(tokens: seq<Token>, size: nat, urls: set<string>, k: nat)
    requires size >= 1 && urls <= KeySet(tokens, UrlOf)
    ensures PiecesOf(tokens, size, urls) * k <= PiecesByUrl(tokens, size) * k
  {
    hide Having, KeySet, Pieces;
    var all := KeySet(tokens, UrlOf);
    SumUnion(urls, all - urls, PiecesAt(tokens, size));
    assert urls + (all - urls) == all;
    SumNotNegative(all - urls, PiecesAt(tokens, size));
    assert PiecesByUrl(tokens, size) * k - PiecesOf(tokens, size, urls) * k == Sum(all - urls, PiecesAt(tokens, size)) * k;
  }

  lemma {:induction false} SumNotNegative(s: set<string>, f: string -> int)
    requires forall x <- s :: f(x) >= 0
    ensures Sum(s, f) >= 0
  {
    if s != {} {
      var x :| x in s && Sum(s, f) == f(x) + Sum(s - {x}, f);
      SumNotNegative(s - {x}, f);
    }
  }

  lemma RepliesShrink(ns: Service, k: nat, url: string, pending: seq<string>)
    ensures var o := PostToNs(ns(k, url, pending), pending);
      && (o.None? <==> ns(k, url, pending).Garbled?)
      && (o.Some? && Accounts(ns) ==> multiset(o.value.retry) <= multiset(pending))
  {
    if Accounts(ns) { PostAccounts(ns, k, url, pending); }
  }

  lemma {:induction false} PieceOfFlat(chunks: seq<seq<string>>, i: nat)
    requires i < |chunks|
    ensures multiset(chunks[i]) <= multiset(Flat(chunks))
  {
    var last := |chunks| - 1;
    if i < last {
      PieceOfFlat(chunks[..last], i);
    }
  }

  lemma NothingPostedYet(ns: Service, log: seq<Post>, tokens: seq<Token>, size: nat)
    requires size >= 1
    ensures PostedToOwn(ns, log, log, tokens, size) && EndsWell(ns, log, log, true)
    ensures PiecesOf(tokens, size, SetOf([])) == 0
    ensures PiecesByUrl(tokens, size) * 0 == 0
  {
    assert SetOf([]) == {};
  }

  lemma PostedOwnOn(ns: Service, log0: seq<Post>, log1: seq<Post>, log2: seq<Post>, url: string,
      tokens: seq<Token>, size: nat)
    requires PostedToOwn(ns, log0, log1, tokens, size) && url in KeySet(tokens, UrlOf)
    requires PostedTo(ns, log1, log2, url, multiset(Strings(Having(tokens, UrlOf, url))), size)
    ensures PostedToOwn(ns, log0, log2, tokens, size)
  {
    hide Accounts, Having, Strings, KeySet;
  }

  lemma NothingSent()
    ensures All(Sent([], [], [], [])) == multiset([])
  {
  }

  lemma NothingUnder(tokens: seq<Token>)
    ensures Strings(Under(tokens, UrlOf, SetOf([]))) == []
  {
    UnderNone(tokens, UrlOf);
    assert SetOf([]) == {};
  }

  lemma AttemptsIfAccounted(ns: Service, k: nat, url: string, pending: seq<string>, attempt: nat, maxRetries: int)
    ensures var (sent, _) := Attempts(ns, k, url, pending, attempt, maxRetries);
      Accounts(ns) && sent.Some? ==> All(sent.value) == multiset(pending)
  {
    if Accounts(ns) {
      AttemptsConserveTokens(ns, k, url, pending, attempt, maxRetries);
    }
  }
}
