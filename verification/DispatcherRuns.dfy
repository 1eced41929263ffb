/**
 * The dispatcher's calls as runs of the outbox protocol: what a pump, a submit or the task
 * handler does to table and queue is a legal sequence of protocol steps. So what holds of
 * every protocol run holds of every interleaving of such calls.
 */
module DispatcherRuns {
  import Collections
  import opened Dispatcher
  import opened OutboxProtocol
  import opened OutboxTable

  // Some legal run leads from s to t.
  ghost predicate Reaches(s: State, t: State) {
    exists steps :: Legal(s, steps) && After(s, steps) == t
  }

  lemma ReachesInOne(s: State, step: Step)
    requires Enabled(s, step)
    ensures Reaches(s, Apply(s, step))
  {
    OnlyStep(s, step);
  }

  lemma StepThenReaches(s: State, step: Step, t: State)
    requires Enabled(s, step) && Reaches(Apply(s, step), t)
    ensures Reaches(s, t)
  {
    var rest :| Legal(Apply(s, step), rest) && After(Apply(s, step), rest) == t;
    Prefixed(s, step, rest);
  }

  // ---------------------------------------------------------------- a pump

  // Fresh holders, one for each claimed row.
  ghost predicate Tokens(s: State, claims: map<nat, int>, picked: set<int>) {
    && claims.Keys !! s.holders.Keys && claims.Values == picked
    && forall t, u :: t in claims && u in claims && claims[t] == claims[u] ==> t == u
  }

  ghost predicate Pumped(s: State, after: Table, claims: map<nat, int>, picked: set<int>, sent: set<int>,
                         fates: map<int, Fate>) {
    && Tokens(s, claims, picked) && picked <= Due(s.rows, s.now)
    && Accounted(s.rows, after, picked, sent, fates, s.now)
  }

  // The rows once the claimed ids in `done` have been dealt with.
  ghost function MiddleRows(s: State, fates: map<int, Fate>, done: set<int>): Table {
    map id | id in s.rows ::
      if id !in fates then s.rows[id]
      else if id in done && fates[id] == Undecodable && s.rows[id].payload.Malformed? then
        DeadRow(ClaimedRow(s.rows[id], s.now), UndecodableNote(s.rows[id].payload), s.now)
      else ClaimedRow(s.rows[id], s.now)
  }

  // Claims and fates speak of the same rows, and no row is claimed twice.
  ghost predicate Consistent(s: State, claims: map<nat, int>, fates: map<int, Fate>) {
    && claims.Values == fates.Keys && fates.Keys <= s.rows.Keys
    && (forall t :: t in claims ==> claims[t] in fates && t !in s.holders)
    && (forall t, u :: t in claims && u in claims && claims[t] == claims[u] ==> t == u)
  }

  // Whether the row of claim t has been buried, and what its holder is otherwise.
  ghost predicate Buried(claims: map<nat, int>, fates: map<int, Fate>, done: set<int>, t: nat)
    requires t in claims && claims[t] in fates
  {
    claims[t] in done && fates[claims[t]] == Undecodable
  }

  ghost function HolderAt(s: State, claims: map<nat, int>, fates: map<int, Fate>, done: set<int>, t: nat): Holder
    requires t in claims && claims[t] in fates && claims[t] in s.rows
  {
    Holder(claims[t], s.rows[claims[t]].payload,
           if claims[t] in done && fates[claims[t]] == Enqueued then Queued else Claimed, s.now)
  }

  ghost function MiddleHolders(s: State, claims: map<nat, int>, fates: map<int, Fate>, done: set<int>): map<nat, Holder>
    requires forall t :: t in claims ==> claims[t] in s.rows && claims[t] in fates
  {
    s.holders + map t | t in claims && !Buried(claims, fates, done, t) :: HolderAt(s, claims, fates, done, t)
  }

  lemma HoldersOf(s: State, claims: map<nat, int>, fates: map<int, Fate>, done: set<int>, t: nat)
    requires Consistent(s, claims, fates)
    ensures
      var holders := MiddleHolders(s, claims, fates, done);
      && (t in claims ==> (t in holders <==> !Buried(claims, fates, done, t)))
      && (t in claims && t in holders ==> holders[t] == HolderAt(s, claims, fates, done, t))
      && (t !in claims ==> (t in holders <==> t in s.holders))
      && (t !in claims && t in holders ==> holders[t] == s.holders[t])
  {
  }

  ghost function Middle(s: State, claims: map<nat, int>, fates: map<int, Fate>, done: set<int>): State
    requires forall t :: t in claims ==> claims[t] in s.rows && claims[t] in fates
  {
    s.(rows := MiddleRows(s, fates, done), holders := MiddleHolders(s, claims, fates, done))
  }

  // What a pump leaves behind: its table, and a queued holder for each new entry.
  ghost function PumpedState(s: State, after: Table, claims: map<nat, int>, sent: set<int>): State
    requires forall t :: t in claims ==> claims[t] in s.rows
  {
    s.(rows := after,
       holders := s.holders
         + map t | t in claims && claims[t] in sent :: Holder(claims[t], s.rows[claims[t]].payload, Queued, s.now))
  }

  ghost function Unsent(claims: map<nat, int>, fates: map<int, Fate>): set<nat> {
    set t | t in claims && claims[t] in fates && fates[claims[t]] == NoSlot
  }

  lemma PumpedFacts(s: State, after: Table, claims: map<nat, int>, picked: set<int>, sent: set<int>,
                    fates: map<int, Fate>)
    requires Pumped(s, after, claims, picked, sent, fates)
    ensures forall t :: t in claims ==>
      claims[t] in picked && claims[t] in s.rows && claims[t] in fates && t !in s.holders
    ensures forall id :: id in picked ==> id in s.rows && HasFate(s.rows[id], after[id], id in sent, fates[id], s.now)
  {
    forall t | t in claims ensures claims[t] in picked && t !in s.holders {
      assert claims[t] in claims.Values;
    }
  }

  lemma PumpedIsConsistent(s: State, after: Table, claims: map<nat, int>, picked: set<int>, sent: set<int>,
                           fates: map<int, Fate>)
    requires Pumped(s, after, claims, picked, sent, fates)
    ensures Consistent(s, claims, fates)
  {
    PumpedFacts(s, after, claims, picked, sent, fates);
  }

  ghost function ClaimedHolders(s: State, claims: map<nat, int>): map<nat, Holder>
    requires forall t :: t in claims ==> claims[t] in s.rows
  {
    s.holders + map t | t in claims :: Holder(claims[t], s.rows[claims[t]].payload, Claimed, s.now)
  }

  lemma ClaimedHolderAt(s: State, claims: map<nat, int>, fates: map<int, Fate>, t: nat)
    requires Consistent(s, claims, fates)
    ensures
      var claimed, middle := ClaimedHolders(s, claims), MiddleHolders(s, claims, fates, {});
      (t in claimed <==> t in middle) && (t in middle ==> claimed[t] == middle[t])
  {
    HoldersOf(s, claims, fates, {}, t);
  }

  lemma SameMap(a: map<nat, Holder>, b: map<nat, Holder>)
    requires forall t :: (t in a <==> t in b) && (t in b ==> a[t] == b[t])
    ensures a == b
  {
  }

  lemma ClaimedHoldersAreMiddle(s: State, claims: map<nat, int>, fates: map<int, Fate>)
    requires Consistent(s, claims, fates)
    ensures ClaimedHolders(s, claims) == MiddleHolders(s, claims, fates, {})
  {
    var claimed, middle := ClaimedHolders(s, claims), MiddleHolders(s, claims, fates, {});
    forall t ensures (t in claimed <==> t in middle) && (t in middle ==> claimed[t] == middle[t]) {
      ClaimedHolderAt(s, claims, fates, t);
    }
    SameMap(claimed, middle);
  }

  lemma ClaimIsMiddle(s: State, claims: map<nat, int>, fates: map<int, Fate>)
    requires Consistent(s, claims, fates) && claims.Values <= Due(s.rows, s.now)
    ensures Enabled(s, ClaimBatch(claims)) && Apply(s, ClaimBatch(claims)) == Middle(s, claims, fates, {})
  {
    forall t | t in claims ensures IsDue(s.rows[claims[t]], s.now) {
      assert claims[t] in claims.Values && claims[t] in Due(s.rows, s.now);
    }
    ClaimedHoldersAreMiddle(s, claims, fates);
    ClaimedRows(s, fates);
  }

  lemma ClaimedRows(s: State, fates: map<int, Fate>)
    ensures ClaimRows(s.rows, fates.Keys, s.now) == MiddleRows(s, fates, {})
  {
  }

  function Deal(t: nat, fate: Fate): Step {
    if fate == Enqueued then Send(t) else BuryUndecodable(t)
  }

  lemma RowsNext(s: State, fates: map<int, Fate>, done: set<int>, id: int)
    requires id in s.rows && id in fates && id !in done
    ensures fates[id] == Enqueued ==> MiddleRows(s, fates, done + {id}) == MiddleRows(s, fates, done)
    ensures fates[id] == Undecodable && s.rows[id].payload.Malformed? ==>
      MiddleRows(s, fates, done + {id}) ==
        MarkDead(MiddleRows(s, fates, done), id, UndecodableNote(s.rows[id].payload), s.now)
  {
  }

  lemma HolderStays(s: State, claims: map<nat, int>, fates: map<int, Fate>, done: set<int>, t: nat, u: nat)
    requires Consistent(s, claims, fates) && t in claims && u != t
    ensures
      var here, there := MiddleHolders(s, claims, fates, done), MiddleHolders(s, claims, fates, done + {claims[t]});
      (u in here <==> u in there) && (u in here ==> here[u] == there[u])
  {
    HoldersOf(s, claims, fates, done, u);
    HoldersOf(s, claims, fates, done + {claims[t]}, u);
  }

  lemma SameBut(here: map<nat, Holder>, there: map<nat, Holder>, t: nat)
    requires forall u :: u != t ==> (u in here <==> u in there) && (u in here ==> here[u] == there[u])
    ensures t in there ==> there == here[t := there[t]]
    ensures t !in there ==> there == here - {t}
  {
  }

  lemma HoldersNext(s: State, claims: map<nat, int>, fates: map<int, Fate>, done: set<int>, t: nat)
    requires Consistent(s, claims, fates) && t in claims && claims[t] !in done
    ensures
      var here, there := MiddleHolders(s, claims, fates, done), MiddleHolders(s, claims, fates, done + {claims[t]});
      && t in here && here[t] == Holder(claims[t], s.rows[claims[t]].payload, Claimed, s.now)
      && (fates[claims[t]] == Enqueued ==> there == here[t := here[t].(stage := Queued)])
      && (fates[claims[t]] == Undecodable ==> there == here - {t})
  {
    var here, there := MiddleHolders(s, claims, fates, done), MiddleHolders(s, claims, fates, done + {claims[t]});
    forall u | u != t ensures (u in here <==> u in there) && (u in here ==> here[u] == there[u]) {
      HolderStays(s, claims, fates, done, t, u);
    }
    SameBut(here, there, t);
    HoldersOf(s, claims, fates, done, t);
    HoldersOf(s, claims, fates, done + {claims[t]}, t);
  }

  lemma MiddleNext(s: State, claims: map<nat, int>, fates: map<int, Fate>, done: set<int>, t: nat)
    requires Consistent(s, claims, fates)
    requires t in claims && claims[t] !in done && fates[claims[t]] != NoSlot
    requires fates[claims[t]] == Enqueued <==> s.rows[claims[t]].payload.Encoded?
    ensures
      var step := Deal(t, fates[claims[t]]);
      && Enabled(Middle(s, claims, fates, done), step)
      && Apply(Middle(s, claims, fates, done), step) == Middle(s, claims, fates, done + {claims[t]})
  {
    RowsNext(s, fates, done, claims[t]);
    HoldersNext(s, claims, fates, done, t);
  }

  lemma UnsentIds(s: State, claims: map<nat, int>, fates: map<int, Fate>, done: set<int>, id: int)
    requires Consistent(s, claims, fates)
    requires forall id :: id in fates ==> (id in done <==> fates[id] != NoSlot)
    ensures id in HeldIds(Middle(s, claims, fates, done), Unsent(claims, fates)) <==> id in fates && fates[id] == NoSlot
  {
    var here := Middle(s, claims, fates, done);
    if id in fates && fates[id] == NoSlot {
      assert id in claims.Values;
      var t :| t in claims && claims[t] == id;
      assert t in Unsent(claims, fates) && here.holders[t].id == id;
    }
  }

  lemma HolderEnds(s: State, claims: map<nat, int>, fates: map<int, Fate>, sent: set<int>, done: set<int>, t: nat)
    requires Consistent(s, claims, fates)
    requires forall id :: id in fates ==>
      (id in done <==> fates[id] != NoSlot) && (id in sent <==> fates[id] == Enqueued)
    ensures
      var holders, right := MiddleHolders(s, claims, fates, done), PumpedState(s, s.rows, claims, sent).holders;
      && (t in Unsent(claims, fates) ==> t in holders && holders[t].stage == Claimed && t !in right)
      && (t !in Unsent(claims, fates) ==> (t in holders <==> t in right) && (t in right ==> holders[t] == right[t]))
  {
    HoldersOf(s, claims, fates, done, t);
  }

  lemma HoldersEnd(s: State, claims: map<nat, int>, fates: map<int, Fate>, sent: set<int>, done: set<int>)
    requires Consistent(s, claims, fates)
    requires forall id :: id in fates ==>
      (id in done <==> fates[id] != NoSlot) && (id in sent <==> fates[id] == Enqueued)
    ensures
      var holders, tokens := MiddleHolders(s, claims, fates, done), Unsent(claims, fates);
      && holders - tokens == PumpedState(s, s.rows, claims, sent).holders
      && (forall t :: t in tokens ==> t in holders && holders[t].stage == Claimed)
  {
    var holders, tokens := MiddleHolders(s, claims, fates, done), Unsent(claims, fates);
    var right := PumpedState(s, s.rows, claims, sent).holders;
    forall t
      ensures t in tokens ==> t in holders && holders[t].stage == Claimed && t !in right
      ensures t !in tokens ==> (t in holders <==> t in right) && (t in right ==> holders[t] == right[t])
    {
      HolderEnds(s, claims, fates, sent, done, t);
    }
    SameWithout(holders, tokens, right);
  }

  lemma SameWithout(holders: map<nat, Holder>, tokens: set<nat>, right: map<nat, Holder>)
    requires forall t :: t in tokens ==> t !in right
    requires forall t :: t !in tokens ==> (t in holders <==> t in right) && (t in right ==> holders[t] == right[t])
    ensures holders - tokens == right
  {
  }

  lemma RowEnds(s: State, after: Table, sent: set<int>, fates: map<int, Fate>, done: set<int>, id: int)
    requires id in s.rows && id in after && (id !in fates ==> after[id] == s.rows[id])
    requires id in fates ==>
      HasFate(s.rows[id], after[id], id in sent, fates[id], s.now) && (id in done <==> fates[id] != NoSlot)
    ensures
      var row := MiddleRows(s, fates, done)[id];
      after[id] == if id in fates && fates[id] == NoSlot then PutBackRow(row, NO_SLOT_DELAY, s.now) else row
  {
  }

  lemma MiddleEnds(s: State, after: Table, claims: map<nat, int>, picked: set<int>, sent: set<int>,
                   fates: map<int, Fate>, done: set<int>)
    requires Pumped(s, after, claims, picked, sent, fates) && Consistent(s, claims, fates)
    requires done == Settling(fates)
    ensures
      var here := Middle(s, claims, fates, done);
      && Enabled(here, PutBack(Unsent(claims, fates)))
      && Apply(here, PutBack(Unsent(claims, fates))) == PumpedState(s, after, claims, sent)
  {
    var here, tokens := Middle(s, claims, fates, done), Unsent(claims, fates);
    forall id | id in fates ensures id in sent <==> fates[id] == Enqueued {
      assert HasFate(s.rows[id], after[id], id in sent, fates[id], s.now);
    }
    HoldersEnd(s, claims, fates, sent, done);
    var rows := PutBackRows(here.rows, HeldIds(here, tokens), NO_SLOT_DELAY, s.now);
    forall id | id in s.rows ensures rows[id] == after[id] {
      UnsentIds(s, claims, fates, done, id);
      RowEnds(s, after, sent, fates, done, id);
    }
    assert rows == after;
  }

  lemma OneDeal(s: State, after: Table, claims: map<nat, int>, picked: set<int>, sent: set<int>, fates: map<int, Fate>,
      done: set<int>, id: int, final: State)
    requires Pumped(s, after, claims, picked, sent, fates) && Consistent(s, claims, fates)
    requires id in fates && id !in done && fates[id] != NoSlot
    requires Reaches(Middle(s, claims, fates, done + {id}), final)
    ensures Reaches(Middle(s, claims, fates, done), final)
  {
    assert id in claims.Values;
    var t :| t in claims && claims[t] == id;
    assert HasFate(s.rows[id], after[id], id in sent, fates[id], s.now);
    MiddleNext(s, claims, fates, done, t);
    StepThenReaches(Middle(s, claims, fates, done), Deal(t, fates[id]), final);
  }

  // The claimed ids that are sent or buried.
  ghost function Settling(fates: map<int, Fate>): set<int> {
    set id | id in fates && fates[id] != NoSlot
  }

  lemma {:induction false} MiddleRuns(s: State, after: Table, claims: map<nat, int>, picked: set<int>, sent: set<int>,
                                      fates: map<int, Fate>,
      done: set<int>, todo: set<int>)
    requires Pumped(s, after, claims, picked, sent, fates) && Consistent(s, claims, fates)
    requires done !! todo && done + todo == Settling(fates)
    ensures Reaches(Middle(s, claims, fates, done), PumpedState(s, after, claims, sent))
    decreases |todo|
  {
    if todo == {} {
      assert done + todo == done;
      MiddleEnds(s, after, claims, picked, sent, fates, done);
      ReachesInOne(Middle(s, claims, fates, done), PutBack(Unsent(claims, fates)));
    } else {
      var id := Collections.Pick(todo);
      assert id in Settling(fates);
      assert (done + {id}) + (todo - {id}) == done + todo;
      MiddleRuns(s, after, claims, picked, sent, fates, done + {id}, todo - {id});
      OneDeal(s, after, claims, picked, sent, fates, done, id, PumpedState(s, after, claims, sent));
    }
  }

  /**
   * A pump is a protocol run: from any state whose table the pump started on, its claim,
   * its sends and burials and its put-back lead to the table it left and to one queued
   * holder per new entry.
   */
  lemma PumpIsProtocolRun(s: State, after: Table, claims: map<nat, int>, picked: set<int>, sent: set<int>,
                          fates: map<int, Fate>)
    requires Pumped(s, after, claims, picked, sent, fates)
    ensures forall t :: t in claims ==> claims[t] in s.rows
    ensures Reaches(s, PumpedState(s, after, claims, sent))
  {
    PumpedIsConsistent(s, after, claims, picked, sent, fates);
    ClaimIsMiddle(s, claims, fates);
    assert {} + Settling(fates) == Settling(fates);
    MiddleRuns(s, after, claims, picked, sent, fates, {}, Settling(fates));
    StepThenReaches(s, ClaimBatch(claims), PumpedState(s, after, claims, sent));
  }

  // ---------------------------------------------------------------- submit and pull

  /** A submit is a run: the insert, and with a free slot the claim and the send. */
  lemma SubmitIsProtocolRun(s: State, id: int, command: TaskCommand, handed: bool, token: nat)
    returns (steps: seq<Step>)
    requires id !in s.rows && id !in s.submitted && token !in s.holders
    ensures Legal(s, steps)
    ensures
      var stored := NewRow(Encoded(command), s.now);
      var after := After(s, steps);
      && after.rows == s.rows[id := if handed then ClaimedRow(stored, s.now) else stored]
      && after.submitted == s.submitted[id := Encoded(command)]
      && after.holders == if handed then s.holders[token := Holder(id, Encoded(command), Queued, s.now)] else s.holders
  {
    var insert := Insert(id, Encoded(command));
    var s1 := Apply(s, insert);
    if handed {
      var s2 := Apply(s1, ClaimOne(token, id, command));
      OnlyStep(s2, Send(token));
      Prefixed(s1, ClaimOne(token, id, command), [Send(token)]);
      Prefixed(s, insert, [ClaimOne(token, id, command)] + [Send(token)]);
      steps := [insert] + ([ClaimOne(token, id, command)] + [Send(token)]);
      assert After(s, steps) == Apply(s2, Send(token));
    } else {
      OnlyStep(s, insert);
      steps := [insert];
    }
  }

  /** A pull is a run: reclaiming, then a pump. */
  lemma PullIsProtocolRun(s: State, timeout: nat, after: Table, claims: map<nat, int>, picked: set<int>, sent: set<int>,
                          fates: map<int, Fate>)
    requires Pumped(Apply(s, ReclaimStale(timeout)), after, claims, picked, sent, fates)
    ensures forall t :: t in claims ==> claims[t] in Apply(s, ReclaimStale(timeout)).rows
    ensures Reaches(s, PumpedState(Apply(s, ReclaimStale(timeout)), after, claims, sent))
  {
    var reclaimed := Apply(s, ReclaimStale(timeout));
    PumpIsProtocolRun(reclaimed, after, claims, picked, sent, fates);
    StepThenReaches(s, ReclaimStale(timeout), PumpedState(reclaimed, after, claims, sent));
  }

  // ---------------------------------------------------------------- recovery

  // Due, decodable rows in order, and fresh tokens from `base` on.
  ghost predicate Recoverable(s: State, ids: seq<int>, base: nat) {
    && (forall i :: 0 <= i < |ids| ==>
        ids[i] in s.rows && IsDue(s.rows[ids[i]], s.now) && s.rows[ids[i]].payload.Encoded?)
    && (forall i, j :: 0 <= i < j < |ids| ==> ids[i] < ids[j])
    && (forall t :: base <= t < base + |ids| ==> t !in s.holders)
  }

  // The holders and offers after the first n of them.
  ghost function RecoveredHolders(s: State, ids: seq<int>, base: nat, n: nat): (holders: map<nat, Holder>)
    requires n <= |ids| && forall i :: 0 <= i < |ids| ==> ids[i] in s.rows
    ensures forall t :: t in holders ==> t in s.holders || base <= t < base + n
  {
    if n == 0 then s.holders
    else
      var last := Holder(ids[n - 1], s.rows[ids[n - 1]].payload, Queued, s.now);
      RecoveredHolders(s, ids, base, n - 1)[base + n - 1 := last]
  }

  ghost function RecoveredOffers(s: State, ids: seq<int>, n: nat): set<(int, TaskCommand)>
    requires n <= |ids| && forall i :: 0 <= i < |ids| ==> ids[i] in s.rows && s.rows[ids[i]].payload.Encoded?
  {
    if n == 0 then s.offers else RecoveredOffers(s, ids, n - 1) + {(ids[n - 1], s.rows[ids[n - 1]].payload.command)}
  }

  // What recovery has done after the first n of them: rows claimed, entries queued.
  ghost function RecoveredState(s: State, ids: seq<int>, base: nat, n: nat): State
    requires n <= |ids| && Recoverable(s, ids, base)
  {
    s.(rows := ClaimRows(s.rows, Elements(ids[..n]), s.now),
       holders := RecoveredHolders(s, ids, base, n), offers := RecoveredOffers(s, ids, n))
  }

  lemma RowStillDue(s: State, ids: seq<int>, base: nat, n: nat)
    requires Recoverable(s, ids, base) && n < |ids|
    ensures
      var rows, next := RecoveredState(s, ids, base, n).rows, RecoveredState(s, ids, base, n + 1).rows;
      ids[n] in rows && rows[ids[n]] == s.rows[ids[n]] && next == rows[ids[n] := ClaimedRow(rows[ids[n]], s.now)]
  {
    assert ids[..n + 1] == ids[..n] + [ids[n]];
    assert ids[n] !in ids[..n];
    ClaimNext(s.rows, ids[..n], ids[n], s.now);
  }

  // The three steps for one row.
  lemma OneRecovered(s: State, ids: seq<int>, base: nat, n: nat)
    requires Recoverable(s, ids, base) && n < |ids|
    ensures
      var here, id := RecoveredState(s, ids, base, n), ids[n];
      && Enabled(here, Offer(id))
      && var offered := Apply(here, Offer(id));
      && Enabled(offered, ClaimOne(base + n, id, s.rows[id].payload.command))
      && var claimed := Apply(offered, ClaimOne(base + n, id, s.rows[id].payload.command));
      && Enabled(claimed, Send(base + n))
      && Apply(claimed, Send(base + n)) == RecoveredState(s, ids, base, n + 1)
  {
    RowStillDue(s, ids, base, n);
    var holders := RecoveredHolders(s, ids, base, n);
    assert base + n !in holders;
  }

  lemma {:induction false} RowsRecovered(s: State, ids: seq<int>, base: nat, n: nat)
    requires Recoverable(s, ids, base) && n <= |ids|
    ensures Reaches(RecoveredState(s, ids, base, n), RecoveredState(s, ids, base, |ids|))
    decreases |ids| - n
  {
    var here, last := RecoveredState(s, ids, base, n), RecoveredState(s, ids, base, |ids|);
    if n == |ids| {
      assert Legal(here, []) && After(here, []) == last;
    } else {
      OneRecovered(s, ids, base, n);
      RowsRecovered(s, ids, base, n + 1);
      var command := s.rows[ids[n]].payload.command;
      var offered := Apply(here, Offer(ids[n]));
      var claimed := Apply(offered, ClaimOne(base + n, ids[n], command));
      StepThenReaches(claimed, Send(base + n), last);
      StepThenReaches(offered, ClaimOne(base + n, ids[n], command), last);
      StepThenReaches(here, Offer(ids[n]), last);
    }
  }

  /**
   * Recovery is a run: reclaiming, then offer, claim and send for each leading decodable
   * row that found a slot. It ends in the table and the entries of recovery's contract.
   */
  lemma RecoverIsProtocolRun(s: State, timeout: nat, ids: seq<int>, k: nat, base: nat)
    requires k <= |ids| && Recoverable(Apply(s, ReclaimStale(timeout)), ids[..k], base)
    ensures
      var reclaimed := Apply(s, ReclaimStale(timeout));
      && Reaches(s, RecoveredState(reclaimed, ids[..k], base, k))
      && RecoveredState(reclaimed, ids[..k], base, k).rows ==
         ClaimRows(Reclaim(s.rows, timeout, s.now), Elements(ids[..k]), s.now)
  {
    var reclaimed := Apply(s, ReclaimStale(timeout));
    assert ids[..k][..k] == ids[..k] && Elements(ids[..k][..0]) == {};
    var start := RecoveredState(reclaimed, ids[..k], base, 0);
    assert start.rows == reclaimed.rows && start.holders == reclaimed.holders && start.offers == reclaimed.offers;
    RowsRecovered(reclaimed, ids[..k], base, 0);
    StepThenReaches(s, ReclaimStale(timeout), RecoveredState(reclaimed, ids[..k], base, k));
  }

  // ---------------------------------------------------------------- handling a task

  lemma ExecutesLater(s: State, token: nat, outcome: Outcome, running: nat)
    requires token in s.holders && s.holders[token].stage == Queued && s.holders[token].payload.Encoded?
    ensures
      var started := Apply(s, Start(token));
      && Enabled(Apply(started, Tick(running)), Execute(token, outcome))
      && var executed := Apply(Apply(started, Tick(running)), Execute(token, outcome));
      && executed.rows == s.rows && executed.offers == s.offers && executed.submitted == s.submitted
      && executed.now == s.now + running
      && executed.holders == s.holders[token := s.holders[token].(stage := Finished(outcome))]
      && executed.succeeded ==
           if outcome == Succeeded then s.succeeded + {(s.holders[token].id, s.holders[token].payload.command)}
           else s.succeeded
  {
  }

  lemma FinishesLater(s: State, token: nat, waiting: nat)
    requires token in s.holders && s.holders[token].stage.Finished?
    ensures
      var end, h := s.now + waiting, s.holders[token];
      Reaches(s, s.(now := end, rows := FinishRow(s.rows, h.id, h.stage.outcome, end), holders := s.holders - {token}))
  {
    var later := Apply(s, Tick(waiting));
    ReachesInOne(later, Finish(token));
    StepThenReaches(s, Tick(waiting), Apply(later, Finish(token)));
  }

  /**
   * Handling a queue entry is a run: start, execute, and finish the row by the outcome;
   * any time may pass before the execution ends and before the row is finished.
   */
  lemma HandleIsProtocolRun(s: State, token: nat, outcome: Outcome, running: nat, waiting: nat)
    requires token in s.holders && s.holders[token].stage == Queued && s.holders[token].payload.Encoded?
    ensures
      var h, end := s.holders[token], s.now + running + waiting;
      Reaches(s, s.(
        now := end, rows := FinishRow(s.rows, h.id, outcome, end), holders := s.holders - {token},
        succeeded := if outcome == Succeeded then s.succeeded + {(h.id, h.payload.command)} else s.succeeded))
  {
    var started := Apply(s, Start(token));
    var ran := Apply(started, Tick(running));
    var executed := Apply(ran, Execute(token, outcome));
    ExecutesLater(s, token, outcome, running);
    FinishesLater(executed, token, waiting);
    assert executed.holders - {token} == s.holders - {token};
    var h, end := s.holders[token], s.now + running + waiting;
    var last := executed.(now := end, rows := FinishRow(s.rows, h.id, outcome, end), holders := s.holders - {token});
    StepThenReaches(ran, Execute(token, outcome), last);
    StepThenReaches(started, Tick(running), last);
    StepThenReaches(s, Start(token), last);
  }
}
