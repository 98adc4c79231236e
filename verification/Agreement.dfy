// Agreement: any number of nodes running the state machine over an asynchronous
// network, the other validators behaving arbitrarily.
//
// The log lists every vote the correct nodes signed, in order, each with the
// polkas its signer had on record.  A key outside `keys` is faulty and may sign
// anything; a correct key's signature exists only if the log has it.
module Agreement {
  import opened Types
  import opened Power
  import opened VoteSets
  import opened HeightVoteSets
  import opened Consensus
  import opened NodeInvariants
  import opened Provenance

  datatype Entry = Entry(key: PubKey, signed: Signed)

  predicate Casts(x: Entry, key: PubKey, h: int, r: int, kind: VoteType, b: BlockID) {
    var v := x.signed.vote;
    x.key == key && v.height == h && v.round == r && v.kind == kind && v.block == b
  }

  predicate InLog(log: seq<Entry>, key: PubKey, h: int, r: int, kind: VoteType, b: BlockID) {
    exists i :: 0 <= i < |log| && Casts(log[i], key, h, r, kind, b)
  }

  function Faulty(c: Chain, keys: set<PubKey>, h: int): set<int> {
    set i | 0 <= i < |c.vals(h)| && c.vals(h)[i].key !in keys
  }

  // The validators that may have voted for `b`: the faulty ones, and those on the log.
  function Backers(c: Chain, keys: set<PubKey>, log: seq<Entry>, h: int, r: int, kind: VoteType, b: BlockID): set<int> {
    set i | 0 <= i < |c.vals(h)| && (c.vals(h)[i].key !in keys || InLog(log, c.vals(h)[i].key, h, r, kind, b))
  }

  predicate Quorum(c: Chain, keys: set<PubKey>, log: seq<Entry>, h: int, r: int, kind: VoteType, b: BlockID) {
    Weight(c.vals(h), Backers(c, keys, log, h, r, kind, b)) > Threshold(c.vals(h))
  }

  // Faulty validators hold less than a third of the power at every height.
  ghost predicate FaultBound(c: Chain, keys: set<PubKey>) {
    forall h :: 3 * Weight(c.vals(h), Faulty(c, keys, h)) < Sum(c.vals(h))
  }

  // ---- Agreement follows from what correct nodes sign ----

  // The polkas an entry mentions were quorums on the log before it.
  ghost predicate Grounded(c: Chain, keys: set<PubKey>, log: seq<Entry>, i: int)
    requires 0 <= i < |log|
  {
    var x := log[i].signed;
    forall q :: q in x.polkas ==> Quorum(c, keys, log[..i], x.vote.height, q, Prevote, x.polkas[q])
  }

  // Two entries of one key: one vote for each height, round and kind, and locks respected.
  ghost predicate Consistent(x: Entry, y: Entry) {
    x.key == y.key ==>
      && LockRespected(x.signed, y.signed)
      && (SamePlaceAndKind(x.signed.vote, y.signed.vote) ==> x.signed.vote.block == y.signed.vote.block)
  }

  predicate SamePlaceAndKind(v: Vote, w: Vote) {
    v.height == w.height && v.round == w.round && v.kind == w.kind
  }

  predicate Proper(c: Chain, v: Vote) {
    v.sig.msg == v.Bytes(c.id) && FitBlock(c, v.kind, v.height, v.block)
  }

  ghost predicate LogInv(c: Chain, keys: set<PubKey>, log: seq<Entry>) {
    && (forall i :: 0 <= i < |log| ==>
          && log[i].key in keys && Justified(log[i].signed) && Grounded(c, keys, log, i)
          && Proper(c, log[i].signed.vote))
    && (forall i, j :: 0 <= i < |log| && 0 <= j < |log| ==> Consistent(log[i], log[j]))
  }

  // A correct validator among those behind a quorum, with its entry.
  lemma CorrectBacker(c: Chain, keys: set<PubKey>, log: seq<Entry>, h: int, r: int, kind: VoteType, b: BlockID)
    returns (i: int)
    requires ChainOK(c) && FaultBound(c, keys) && Quorum(c, keys, log, h, r, kind, b)
    ensures 0 <= i < |log| && log[i].signed.vote.height == h && log[i].signed.vote.round == r
    ensures log[i].signed.vote.kind == kind && log[i].signed.vote.block == b
  {
    var k := CorrectInQuorum(c.vals(h), Backers(c, keys, log, h, r, kind, b), Faulty(c, keys, h));
    i :| 0 <= i < |log| && Casts(log[i], c.vals(h)[k].key, h, r, kind, b);
  }

  // One correct key behind two quorums, possibly on different stretches of the log.
  lemma CorrectInTwo(c: Chain, keys: set<PubKey>, log: seq<Entry>, n: nat, h: int,
                     r: int, kind: VoteType, b: BlockID, r': int, kind': VoteType, b': BlockID) returns (i: int, j: int)
    requires ChainOK(c) && FaultBound(c, keys) && n <= |log|
    requires Quorum(c, keys, log, h, r, kind, b) && Quorum(c, keys, log[..n], h, r', kind', b')
    ensures 0 <= i < |log| && 0 <= j < n && log[i].key == log[j].key
    ensures Casts(log[i], log[i].key, h, r, kind, b) && Casts(log[j], log[i].key, h, r', kind', b')
  {
    var k := CorrectInBoth(c.vals(h), Backers(c, keys, log, h, r, kind, b),
                           Backers(c, keys, log[..n], h, r', kind', b'), Faulty(c, keys, h));
    i :| 0 <= i < |log| && Casts(log[i], c.vals(h)[k].key, h, r, kind, b);
    j :| 0 <= j < |log[..n]| && Casts(log[..n][j], c.vals(h)[k].key, h, r', kind', b');
  }

  // Once a block has a quorum of precommits, no later round ever has a polka for
  // anything else: the first vote for one would break a lock.
  lemma {:induction false} NoOpposingPolka(c: Chain, keys: set<PubKey>, log: seq<Entry>, n: nat,
                                           h: int, r: int, b: BlockID, r': int, other: BlockID)
    requires ChainOK(c) && FaultBound(c, keys) && LogInv(c, keys, log) && n <= |log|
    requires Quorum(c, keys, log, h, r, Precommit, b) && b.Block?
    requires r < r' && !other.Names(b.id)
    ensures !Quorum(c, keys, log[..n], h, r', Prevote, other)
    decreases n
  {
    if Quorum(c, keys, log[..n], h, r', Prevote, other) {
      var i, j := CorrectInTwo(c, keys, log, n, h, r, Precommit, b, r', Prevote, other);
      assert Consistent(log[i], log[j]);
      var y := log[j].signed;
      var q :| q in y.polkas && r < q <= r' && !y.polkas[q].Names(b.id);
      assert Grounded(c, keys, log, j);
      NoOpposingPolka(c, keys, log, j, h, r, b, q, y.polkas[q]);
      assert false;
    }
  }

  // Two quorums of precommits at one height, in whatever rounds, are for one block;
  // in one round also for one part-set header.
  lemma QuorumsAgree(c: Chain, keys: set<PubKey>, log: seq<Entry>, h: int, r: int, b: BlockID, r': int, b': BlockID)
    requires ChainOK(c) && FaultBound(c, keys) && LogInv(c, keys, log)
    requires Quorum(c, keys, log, h, r, Precommit, b) && Quorum(c, keys, log, h, r', Precommit, b')
    requires b.Block? && b'.Block?
    ensures b.id == b'.id && (r == r' ==> b == b')
  {
    if r < r' {
      LaterQuorumAgrees(c, keys, log, h, r, b, r', b');
    } else if r' < r {
      LaterQuorumAgrees(c, keys, log, h, r', b', r, b);
    } else {
      assert log[..|log|] == log;
      var i, j := CorrectInTwo(c, keys, log, |log|, h, r, Precommit, b, r', Precommit, b');
      assert Consistent(log[i], log[j]);
    }
  }

  lemma LaterQuorumAgrees(c: Chain, keys: set<PubKey>, log: seq<Entry>,
                          h: int, r: int, b: BlockID, r': int, b': BlockID)
    requires ChainOK(c) && FaultBound(c, keys) && LogInv(c, keys, log) && r < r'
    requires Quorum(c, keys, log, h, r, Precommit, b) && Quorum(c, keys, log, h, r', Precommit, b')
    requires b.Block? && b'.Block?
    ensures b.id == b'.id
  {
    var i := CorrectBacker(c, keys, log, h, r', Precommit, b');
    assert Grounded(c, keys, log, i);
    if b.id != b'.id { NoOpposingPolka(c, keys, log, i, h, r, b, r', b'); }
  }

  // What a quorum is behind is valid: a correct validator vouched for it.
  lemma QuorumIsValid(c: Chain, keys: set<PubKey>, log: seq<Entry>, h: int, r: int, kind: VoteType, b: BlockID)
    requires ChainOK(c) && FaultBound(c, keys) && LogInv(c, keys, log)
    requires Quorum(c, keys, log, h, r, kind, b)
    ensures b.Block? ==> c.valid(h, b.id)
  {
    var i := CorrectBacker(c, keys, log, h, r, kind, b);
  }

  // And its header is one a part set can have: somebody correct prevoted for it.
  lemma QuorumHeader(c: Chain, keys: set<PubKey>, log: seq<Entry>, h: int, r: int, kind: VoteType, b: BlockID)
    requires ChainOK(c) && FaultBound(c, keys) && LogInv(c, keys, log) && (kind.Prevote? || kind.Precommit?)
    requires Quorum(c, keys, log, h, r, kind, b)
    ensures b.parts.total >= 0
  {
    hide Quorum, FaultBound;
    var i := CorrectBacker(c, keys, log, h, r, kind, b);
    assert Proper(c, log[i].signed.vote);
    if kind.Precommit? && b.Block? {
      assert Grounded(c, keys, log, i) && Justified(log[i].signed);
      var j := CorrectBacker(c, keys, log[..i], h, r, Prevote, b);
      assert Proper(c, log[j].signed.vote);
    }
  }

  // ---- A longer log keeps its quorums ----

  lemma QuorumGrows(c: Chain, keys: set<PubKey>, log: seq<Entry>, log': seq<Entry>,
                    h: int, r: int, kind: VoteType, b: BlockID)
    requires ChainOK(c) && log <= log' && Quorum(c, keys, log, h, r, kind, b)
    ensures Quorum(c, keys, log', h, r, kind, b)
  {
    var vals := c.vals(h);
    forall i | i in Backers(c, keys, log, h, r, kind, b) ensures i in Backers(c, keys, log', h, r, kind, b) {
      if InLog(log, vals[i].key, h, r, kind, b) {
        var k :| 0 <= k < |log| && Casts(log[k], vals[i].key, h, r, kind, b);
        assert Casts(log'[k], vals[i].key, h, r, kind, b);
      }
    }
    WeightMonotone(vals, Backers(c, keys, log, h, r, kind, b), Backers(c, keys, log', h, r, kind, b));
  }

  // ---- The network ----

  datatype Net = Net(nodes: seq<Node>, log: seq<Entry>)

  function Keys(nodes: seq<Node>): set<PubKey> {
    set i | 0 <= i < |nodes| && nodes[i].key.Some? :: nodes[i].key.value
  }

  // A vote bearing a correct key's signature repeats something that key signed.
  predicate Unforged(keys: set<PubKey>, log: seq<Entry>, v: Vote) {
    v.sig.key in keys ==>
      exists i :: 0 <= i < |log| && log[i].key == v.sig.key && log[i].signed.vote.sig.msg == v.sig.msg
  }

  // Node `who` takes input `ev`.  Proposals, block parts and timeouts are arbitrary;
  // votes may be delayed, dropped, repeated and reordered, but not forged.
  datatype Delivery = Delivery(who: nat, env: Env, ev: Event)

  predicate Possible(net: Net, d: Delivery) {
    d.who < |net.nodes| && (d.ev.VoteMsg? ==> Unforged(Keys(net.nodes), net.log, d.ev.vote))
  }

  function NewEntries(s: Node, s': Node): seq<Entry> {
    if s.key.None? || |s'.signed| <= |s.signed| then []
    else seq(|s'.signed| - |s.signed|, i requires 0 <= i < |s'.signed| - |s.signed| =>
                                         Entry(s.key.value, s'.signed[|s.signed| + i]))
  }

  ghost predicate AllSigned(keys: set<PubKey>, log: seq<Entry>, s: Node) {
    forall w :: RecordedAt(s.votes, s.lastCommit, w) ==> Unforged(keys, log, w)
  }

  ghost predicate Backed(c: Chain, keys: set<PubKey>, log: seq<Entry>, h: int, d: Decided) {
    Quorum(c, keys, log, h, d.round, Precommit, Block(d.block, d.parts))
  }

  ghost predicate DecisionsBacked(c: Chain, keys: set<PubKey>, log: seq<Entry>, s: Node) {
    forall h :: h in s.decided ==> Backed(c, keys, log, h, s.decided[h])
  }

  ghost predicate EntriesOf(log: seq<Entry>, s: Node) {
    forall p :: 0 <= p < |log| && s.key == Some(log[p].key) ==> log[p].signed in s.signed
  }

  ghost predicate NodeInNet(c: Chain, keys: set<PubKey>, log: seq<Entry>, s: Node) {
    && NodeInv(c, s) && (s.key.Some? ==> s.key.value in keys)
    && AllSigned(keys, log, s) && DecisionsBacked(c, keys, log, s) && EntriesOf(log, s)
    && !s.halt.BadMajority()
  }

  ghost predicate NetInv(c: Chain, keys: set<PubKey>, net: Net) {
    && keys == Keys(net.nodes)
    && (forall i, j :: 0 <= i < j < |net.nodes| && net.nodes[i].key.Some? ==> net.nodes[i].key != net.nodes[j].key)
    && LogInv(c, keys, net.log)
    && (forall i :: 0 <= i < |net.nodes| ==> NodeInNet(c, keys, net.log, net.nodes[i]))
  }

  lemma BackedGrows(c: Chain, keys: set<PubKey>, log: seq<Entry>, log': seq<Entry>, h: int, d: Decided)
    requires ChainOK(c) && log <= log' && Backed(c, keys, log, h, d)
    ensures Backed(c, keys, log', h, d)
  {
    QuorumGrows(c, keys, log, log', h, d.round, Precommit, Block(d.block, d.parts));
  }

  // ---- A majority on record is a quorum on the log ----

  ghost predicate TallyOf(c: Chain, t: Tally) {
    TallyInv(t) && t.chain == c.id && t.vals == c.vals(t.height)
  }

  lemma MajorityIsQuorum(c: Chain, keys: set<PubKey>, log: seq<Entry>, t: Tally)
    requires ChainOK(c) && LogInv(c, keys, log) && TallyOf(c, t) && t.maj23.Some?
    requires forall w :: Recorded(t, w) ==> Unforged(keys, log, w)
    ensures Quorum(c, keys, log, t.height, t.round, t.kind, t.maj23.value)
  {
    hide TallyInv, Consistent, Grounded, Justified, Recorded;
    ExactTally(t);
    var who := MajorityIsBacked(t);
    var backers := Backers(c, keys, log, t.height, t.round, t.kind, t.maj23.value);
    forall i | i in who ensures i in backers {
      var v :| Recorded(t, v) && 0 <= i < |t.vals| && Good(t, i, v) && v.block == t.maj23.value;
      if v.sig.key in keys {
        var p :| 0 <= p < |log| && log[p].key == v.sig.key && log[p].signed.vote.sig.msg == v.sig.msg;
        assert Casts(log[p], v.sig.key, t.height, t.round, t.kind, t.maj23.value);
      }
    }
    WeightMonotone(t.vals, who, backers);
  }

  lemma ExactTally(t: Tally)
    requires TallyInv(t)
    ensures ExactPowers(t.vals)
  {
  }

  lemma MajoritiesAreQuorums(c: Chain, keys: set<PubKey>, log: seq<Entry>, s: Node, r: int)
    requires ChainOK(c) && LogInv(c, keys, log) && AllSigned(keys, log, s)
    requires VotesOK(c, s.votes, s.height, s.round, s.step)
    ensures s.votes.Polka(r).Some? ==> Quorum(c, keys, log, s.height, r, Prevote, s.votes.Polka(r).value)
    ensures s.votes.Decision(r).Some? ==> Quorum(c, keys, log, s.height, r, Precommit, s.votes.Decision(r).value)
  {
    hide TallyInv, LogInv, Recorded;
    if r in s.votes.sets {
      assert RoundInv(s.votes, r, s.votes.sets[r]);
      var pv, pc := s.votes.sets[r].prevotes, s.votes.sets[r].precommits;
      forall w | Recorded(pv, w) || Recorded(pc, w) ensures Unforged(keys, log, w) {
        assert RecordedAt(s.votes, s.lastCommit, w);
      }
      if pv.maj23.Some? { MajorityIsQuorum(c, keys, log, pv); }
      if pc.maj23.Some? { MajorityIsQuorum(c, keys, log, pc); }
    }
  }

  // ---- One delivery ----

  lemma AddVoteToRecords(h: HeightVotes, v: Vote, peer: Peer, w: Vote)
    requires HeightInv(h) && ShapeAll(h) && RecordedIn(AddVoteTo(h, v, peer).votes, w)
    ensures RecordedIn(h, w) || w == v
  {
    hide TallyInv, AddVote, Recorded;
    var h' := AddVoteTo(h, v, peer).votes;
    var r :| r in h'.sets && (Recorded(h'.sets[r].prevotes, w) || Recorded(h'.sets[r].precommits, w));
    NewRoundRecords(h, v.round, w);
    if r != v.round {
      assert h'.sets[r] == h.sets[r];
    } else if v.kind.UnknownType? {
    } else if r in h.sets {
      assert RoundInv(h, r, h.sets[r]);
      TallyRecords(h.sets[r].prevotes, v, w);
      TallyRecords(h.sets[r].precommits, v, w);
    } else if |CatchupRounds(h, peer)| < 2 {
      HeightVoteSets.NewRoundInv(h, r);
      var rv := NewRoundVotes(h.chain, h.height, r, h.vals);
      TallyRecords(rv.prevotes, v, w);
      TallyRecords(rv.precommits, v, w);
    }
  }

  lemma NewRoundRecords(h: HeightVotes, r: int, w: Vote)
    ensures !Recorded(NewRoundVotes(h.chain, h.height, r, h.vals).prevotes, w)
    ensures !Recorded(NewRoundVotes(h.chain, h.height, r, h.vals).precommits, w)
  {
  }

  lemma TallyRecords(t: Tally, v: Vote, w: Vote)
    requires TallyInv(t)
    ensures Shape(t)
    ensures Recorded(AddVote(t, v).tally, w) ==> Recorded(t, w) || w == v
  {
    if Recorded(AddVote(t, v).tally, w) { AddVoteRecords(t, v, w); }
  }

  lemma SetPeerMaj23InRecords(h: HeightVotes, r: int, kind: VoteType, peer: Peer, b: BlockID, w: Vote)
    requires RecordedIn(SetPeerMaj23In(h, r, kind, peer, b), w)
    ensures RecordedIn(h, w)
  {
    hide SetPeerMaj23, Recorded;
    var h' := SetPeerMaj23In(h, r, kind, peer, b);
    var q :| q in h'.sets && (Recorded(h'.sets[q].prevotes, w) || Recorded(h'.sets[q].precommits, w));
    assert q in h.sets;
    if h' != h && q == r {
      if kind.Prevote? && Recorded(h'.sets[q].prevotes, w) { SetPeerMaj23Records(h.sets[q].prevotes, peer, b, w); }
      if kind.Precommit? && Recorded(h'.sets[q].precommits, w) {
        SetPeerMaj23Records(h.sets[q].precommits, peer, b, w);
      }
    }
  }

  // Taking in a vote that is not forged leaves every recorded vote unforged.
  lemma ReceivedSigned(c: Chain, keys: set<PubKey>, log: seq<Entry>, s: Node, ev: Event)
    requires NodeInv(c, s) && ShapeAll(s.votes) && (s.lastCommit.Some? ==> Shape(s.lastCommit.value))
    requires AllSigned(keys, log, s) && (ev.VoteMsg? ==> Unforged(keys, log, ev.vote))
    ensures AllSigned(keys, log, Received(s, ev))
  {
    NodeFacts(c, s);
    LastCommitFact(c, s);
    hide NodeInv, TallyInv, HeightInv, AddVote, AddVoteTo, SetPeerMaj23In, RecordedIn, Recorded, Unforged;
    var base := Received(s, ev);
    forall w | RecordedAt(base.votes, base.lastCommit, w) ensures Unforged(keys, log, w) {
      match ev
      case VoteMsg(v, peer) =>
        if base.votes != s.votes && RecordedIn(base.votes, w) { AddVoteToRecords(s.votes, v, peer, w); }
        if base.lastCommit != s.lastCommit { TallyRecords(s.lastCommit.value, v, w); }
        assert w == v || RecordedAt(s.votes, s.lastCommit, w);
      case PeerMaj23Msg(height, round, kind, peer, b) =>
        if base.votes != s.votes && RecordedIn(base.votes, w) {
          SetPeerMaj23InRecords(s.votes, round, kind, peer, b, w);
        }
        assert RecordedAt(s.votes, s.lastCommit, w);
      case _ =>
    }
  }

  lemma LastCommitFact(c: Chain, s: Node)
    requires NodeInv(c, s)
    ensures s.lastCommit.Some? ==> TallyInv(s.lastCommit.value)
  {
  }

  lemma ReceivedVotesOK(c: Chain, s: Node, ev: Event)
    requires NodeInv(c, s) && ShapeAll(s.votes) && (s.lastCommit.Some? ==> Shape(s.lastCommit.value))
    ensures var base := Received(s, ev);
      && VotesOK(c, base.votes, base.height, base.round, base.step)
      && base.decided == s.decided && base.signed == s.signed && base.key == s.key && base.height == s.height
      && (base.halt == s.halt || base.halt == NilLastCommitPanic)
  {
    hide HeightInv, SignedOK, HeldOK, TimeoutsOK, LastCommitOK, LockOK, AddVote, AddVoteTo, SetPeerMaj23In;
    match ev
    case VoteMsg(v, peer) => AddVoteToInv(s.votes, v, peer);
    case PeerMaj23Msg(height, round, kind, peer, b) => SetPeerMaj23InInv(s.votes, round, kind, peer, b);
    case _ =>
  }

  predicate Shaped(s: Node) {
    ShapeAll(s.votes) && (s.lastCommit.Some? ==> Shape(s.lastCommit.value))
  }

  function Deliver(c: Chain, net: Net, d: Delivery): Net
    requires d.who < |net.nodes| && Shaped(net.nodes[d.who])
  {
    var s := net.nodes[d.who];
    var s' := Handle(c, d.env, s, d.ev);
    Net(net.nodes[d.who := s'], net.log + NewEntries(s, s'))
  }

  lemma UnforgedGrows(keys: set<PubKey>, log: seq<Entry>, log': seq<Entry>, v: Vote)
    requires log <= log' && Unforged(keys, log, v)
    ensures Unforged(keys, log', v)
  {
    if v.sig.key in keys {
      var i :| 0 <= i < |log| && log[i].key == v.sig.key && log[i].signed.vote.sig.msg == v.sig.msg;
      assert log'[i] == log[i];
    }
  }

  lemma SignedConsistent(c: Chain, s: Node, x: Signed, y: Signed, key: PubKey)
    requires SignedOK(c, s.key, s.signed, s.height, s.round, s.step) && x in s.signed && y in s.signed
    ensures Consistent(Entry(key, x), Entry(key, y))
  {
  }

  // What one node adds to the log.
  ghost predicate Contribution(c: Chain, keys: set<PubKey>, log: seq<Entry>, s: Node, base: Node, s': Node) {
    && s'.key == s.key && s.signed == base.signed && SignedFrom(base, s')
    && SignedOK(c, s'.key, s'.signed, s'.height, s'.round, s'.step)
    && (s.key.Some? ==> s.key.value in keys) && EntriesOf(log, s)
    && forall q :: base.votes.Polka(q).Some? ==>
         Quorum(c, keys, log, base.height, q, Prevote, base.votes.Polka(q).value)
  }

  lemma NewEntryInLog(c: Chain, keys: set<PubKey>, log: seq<Entry>, s: Node, base: Node, s': Node, p: int)
    requires ChainOK(c) && LogInv(c, keys, log) && Contribution(c, keys, log, s, base, s')
    requires |log| <= p < |log + NewEntries(s, s')|
    ensures var log' := log + NewEntries(s, s');
      && log'[p].key in keys && s.key == Some(log'[p].key) && log'[p].signed in s'.signed
      && Justified(log'[p].signed) && Grounded(c, keys, log', p)
      && Proper(c, log'[p].signed.vote)
  {
    hide LogInv, Quorum, LockRespected;
    var log' := log + NewEntries(s, s');
    var i := |s.signed| + (p - |log|);
    var x := s'.signed[i];
    assert log'[p] == Entry(s.key.value, x);
    assert PolkasFrom(base, x);
    forall q | q in x.polkas ensures Quorum(c, keys, log'[..p], x.vote.height, q, Prevote, x.polkas[q]) {
      assert base.votes.Polka(q) == Some(x.polkas[q]);
      QuorumGrows(c, keys, log, log'[..p], base.height, q, Prevote, x.polkas[q]);
    }
  }

  lemma OldEntryInLog(c: Chain, keys: set<PubKey>, log: seq<Entry>, more: seq<Entry>, p: int)
    requires LogInv(c, keys, log) && 0 <= p < |log|
    ensures Grounded(c, keys, log + more, p)
  {
    assert Grounded(c, keys, log, p);
    assert (log + more)[..p] == log[..p];
  }

  lemma PairInLog(c: Chain, keys: set<PubKey>, log: seq<Entry>, s: Node, base: Node, s': Node, p: int, q: int)
    requires ChainOK(c) && LogInv(c, keys, log) && Contribution(c, keys, log, s, base, s')
    requires 0 <= p < |log + NewEntries(s, s')| && 0 <= q < |log + NewEntries(s, s')|
    ensures Consistent((log + NewEntries(s, s'))[p], (log + NewEntries(s, s'))[q])
  {
    hide Quorum, Consistent, Grounded, SignedOK;
    var log' := log + NewEntries(s, s');
    if p < |log| && q < |log| {
      assert Consistent(log[p], log[q]);
    } else {
      if p >= |log| { NewEntryInLog(c, keys, log, s, base, s', p); }
      if q >= |log| { NewEntryInLog(c, keys, log, s, base, s', q); }
      if log'[p].key == log'[q].key {
        assert log'[p].signed in s'.signed && log'[q].signed in s'.signed;
        SignedConsistent(c, s', log'[p].signed, log'[q].signed, log'[p].key);
      } else {
        DifferentKeys(log'[p], log'[q]);
      }
    }
  }

  lemma DifferentKeys(x: Entry, y: Entry)
    ensures x.key != y.key ==> Consistent(x, y)
  {
  }

  lemma LogGrows(c: Chain, keys: set<PubKey>, log: seq<Entry>, s: Node, base: Node, s': Node)
    requires ChainOK(c) && LogInv(c, keys, log) && Contribution(c, keys, log, s, base, s')
    ensures LogInv(c, keys, log + NewEntries(s, s'))
  {
    hide Consistent, Grounded, Contribution, NewEntries;
    var log' := log + NewEntries(s, s');
    forall p | 0 <= p < |log'|
      ensures log'[p].key in keys && Justified(log'[p].signed) && Grounded(c, keys, log', p)
        && Proper(c, log'[p].signed.vote)
    {
      if p < |log| { OldEntryInLog(c, keys, log, NewEntries(s, s'), p); }
      else { NewEntryInLog(c, keys, log, s, base, s', p); }
    }
    forall p, q | 0 <= p < |log'| && 0 <= q < |log'| ensures Consistent(log'[p], log'[q]) {
      PairInLog(c, keys, log, s, base, s', p, q);
    }
  }

  // The other nodes are unaffected by a longer log.
  lemma BystanderInNet(c: Chain, keys: set<PubKey>, log: seq<Entry>, more: seq<Entry>, s: Node)
    requires ChainOK(c) && NodeInNet(c, keys, log, s)
    requires forall p :: 0 <= p < |more| ==> s.key != Some(more[p].key)
    ensures NodeInNet(c, keys, log + more, s)
  {
    hide NodeInv, Quorum, Unforged, RecordedAt;
    var log' := log + more;
    forall w | RecordedAt(s.votes, s.lastCommit, w) ensures Unforged(keys, log', w) {
      UnforgedGrows(keys, log, log', w);
    }
    forall h | h in s.decided
      ensures Backed(c, keys, log', h, s.decided[h])
    {
      BackedGrows(c, keys, log, log', h, s.decided[h]);
    }
  }

  ghost predicate BaseInNet(c: Chain, keys: set<PubKey>, log: seq<Entry>, base: Node) {
    && AllSigned(keys, log, base) && DecisionsBacked(c, keys, log, base)
    && !base.halt.BadMajority()
    && (forall r :: base.votes.Polka(r).Some? ==>
          Quorum(c, keys, log, base.height, r, Prevote, base.votes.Polka(r).value))
    && (forall r :: base.votes.Decision(r).Some? ==>
          Quorum(c, keys, log, base.height, r, Precommit, base.votes.Decision(r).value))
  }

  lemma BaseIsInNet(c: Chain, keys: set<PubKey>, log: seq<Entry>, s: Node, ev: Event)
    requires ChainOK(c) && LogInv(c, keys, log) && NodeInNet(c, keys, log, s) && Shaped(s)
    requires ev.VoteMsg? ==> Unforged(keys, log, ev.vote)
    ensures BaseInNet(c, keys, log, Received(s, ev))
  {
    hide NodeInv, LogInv, AllSigned, Quorum, Received, Unforged;
    var base := Received(s, ev);
    ReceivedSigned(c, keys, log, s, ev);
    ReceivedVotesOK(c, s, ev);
    forall r
      ensures base.votes.Polka(r).Some? ==> Quorum(c, keys, log, base.height, r, Prevote, base.votes.Polka(r).value)
      ensures base.votes.Decision(r).Some? ==>
        Quorum(c, keys, log, base.height, r, Precommit, base.votes.Decision(r).value)
    {
      MajoritiesAreQuorums(c, keys, log, base, r);
    }
  }

  // No complaint about an invalid block can be well founded.
  lemma NoInvalidBlock(c: Chain, keys: set<PubKey>, log: seq<Entry>, base: Node, s': Node)
    requires ChainOK(c) && FaultBound(c, keys) && LogInv(c, keys, log)
    requires BaseInNet(c, keys, log, base) && HaltFrom(c, base, s')
    ensures !s'.halt.BadMajority()
  {
    hide LogInv, Quorum, AllSigned, DecisionsBacked;
    if s'.halt == InvalidPolkaPanic {
      var r, b :| base.votes.Polka(r) == Some(b) && Invalid(c, base.height, b);
      QuorumIsValid(c, keys, log, base.height, r, Prevote, b);
    }
    if s'.halt == InvalidCommitPanic {
      var r, b :| base.votes.Decision(r) == Some(b) && Invalid(c, base.height, b);
      QuorumIsValid(c, keys, log, base.height, r, Precommit, b);
    }
    if s'.halt == FetchHeaderPanic {
      var r, b :| Majority(base.votes, r, b) && b.parts.total < 0;
      QuorumHeader(c, keys, log, base.height, r, if base.votes.Polka(r) == Some(b) then Prevote else Precommit, b);
    }
  }

  lemma DecisionsStayBacked(c: Chain, keys: set<PubKey>, log: seq<Entry>, log': seq<Entry>, base: Node, s': Node)
    requires ChainOK(c) && log <= log' && BaseInNet(c, keys, log, base) && DecidedFrom(base, s')
    ensures DecisionsBacked(c, keys, log', s')
  {
    hide Quorum, AllSigned;
    forall h | h in s'.decided
      ensures Backed(c, keys, log', h, s'.decided[h])
    {
      assert Backed(c, keys, log, h, s'.decided[h]);
      BackedGrows(c, keys, log, log', h, s'.decided[h]);
    }
  }

  lemma VotesStaySigned(keys: set<PubKey>, log: seq<Entry>, log': seq<Entry>, base: Node, s': Node)
    requires log <= log' && AllSigned(keys, log, base) && VotesFrom(base, s')
    ensures AllSigned(keys, log', s')
  {
    hide RecordedAt, Unforged;
    forall w | RecordedAt(s'.votes, s'.lastCommit, w) ensures Unforged(keys, log', w) {
      UnforgedGrows(keys, log, log', w);
    }
  }

  lemma EntriesStay(c: Chain, keys: set<PubKey>, log: seq<Entry>, s: Node, base: Node, s': Node)
    requires ChainOK(c) && LogInv(c, keys, log) && Contribution(c, keys, log, s, base, s')
    ensures EntriesOf(log + NewEntries(s, s'), s')
  {
    hide LogInv, Quorum, SignedOK, Grounded, Justified;
    var log' := log + NewEntries(s, s');
    forall p | 0 <= p < |log'| && s'.key == Some(log'[p].key) ensures log'[p].signed in s'.signed {
      if p >= |log| { NewEntryInLog(c, keys, log, s, base, s', p); }
    }
  }

  lemma ActorInNet(c: Chain, keys: set<PubKey>, log: seq<Entry>, e: Env, s: Node, ev: Event)
    requires ChainOK(c) && FaultBound(c, keys) && LogInv(c, keys, log) && NodeInNet(c, keys, log, s) && Shaped(s)
    requires ev.VoteMsg? ==> Unforged(keys, log, ev.vote)
    ensures var s' := Handle(c, e, s, ev);
      LogInv(c, keys, log + NewEntries(s, s')) && NodeInNet(c, keys, log + NewEntries(s, s'), s') && s'.key == s.key
  {
    hide LogInv, AllSigned, DecisionsBacked, Quorum, Received, Handle, Unforged, MajoritiesFrom, SignedFrom,
         DecidedFrom, VotesFrom, HaltFrom, EntriesOf, NewEntries, FrameInv, LockOK, SignedOK, HeldOK;
    var base := Received(s, ev);
    var s' := Handle(c, e, s, ev);
    HandleInv(c, e, s, ev);
    HandleFollows(c, e, s, ev);
    BaseIsInNet(c, keys, log, s, ev);
    ReceivedVotesOK(c, s, ev);
    assert Contribution(c, keys, log, s, base, s');
    LogGrows(c, keys, log, s, base, s');
    EntriesStay(c, keys, log, s, base, s');
    VotesStaySigned(keys, log, log + NewEntries(s, s'), base, s');
    DecisionsStayBacked(c, keys, log, log + NewEntries(s, s'), base, s');
    NoInvalidBlock(c, keys, log, base, s');
  }

  lemma ShapedInNet(c: Chain, keys: set<PubKey>, net: Net)
    requires NetInv(c, keys, net)
    ensures forall i :: 0 <= i < |net.nodes| ==> Shaped(net.nodes[i])
  {
    hide NodeInv;
    forall i | 0 <= i < |net.nodes| ensures Shaped(net.nodes[i]) {
      assert NodeInNet(c, keys, net.log, net.nodes[i]);
      NodeShapes(c, net.nodes[i]);
    }
  }

  lemma KeysKept(nodes: seq<Node>, i: int, s: Node)
    requires 0 <= i < |nodes| && s.key == nodes[i].key
    ensures Keys(nodes[i := s]) == Keys(nodes)
  {
    var nodes' := nodes[i := s];
    forall k | k in Keys(nodes) ensures k in Keys(nodes') {
      var j :| 0 <= j < |nodes| && nodes[j].key.Some? && nodes[j].key.value == k;
      assert nodes'[j].key == nodes[j].key;
    }
    forall k | k in Keys(nodes') ensures k in Keys(nodes) {
      var j :| 0 <= j < |nodes'| && nodes'[j].key.Some? && nodes'[j].key.value == k;
      assert nodes'[j].key == nodes[j].key;
    }
  }

  // Every possible delivery keeps the network's invariant.
  lemma DeliverInv(c: Chain, keys: set<PubKey>, net: Net, d: Delivery)
    requires ChainOK(c) && FaultBound(c, keys) && NetInv(c, keys, net) && Possible(net, d)
    ensures Shaped(net.nodes[d.who])
    ensures NetInv(c, keys, Deliver(c, net, d))
  {
    hide LogInv, NodeInNet, Handle, Unforged;
    ShapedInNet(c, keys, net);
    var s := net.nodes[d.who];
    var s' := Handle(c, d.env, s, d.ev);
    var net' := Deliver(c, net, d);
    ActorInNet(c, keys, net.log, d.env, s, d.ev);
    KeysKept(net.nodes, d.who, s');
    forall i | 0 <= i < |net'.nodes| ensures NodeInNet(c, keys, net'.log, net'.nodes[i]) {
      if i != d.who {
        BystanderInNet(c, keys, net.log, NewEntries(s, s'), net.nodes[i]);
      }
    }
  }

  // ---- Whole runs ----

  function InitNet(c: Chain, keys: seq<Option<PubKey>>): Net {
    Net(seq(|keys|, i requires 0 <= i < |keys| => Init(c, keys[i], 1, None)), [])
  }

  predicate DistinctKeys(keys: seq<Option<PubKey>>) {
    forall i, j :: 0 <= i < j < |keys| && keys[i].Some? ==> keys[i] != keys[j]
  }

  lemma InitNetInv(c: Chain, keys: seq<Option<PubKey>>)
    requires ChainOK(c) && DistinctKeys(keys)
    ensures NetInv(c, Keys(InitNet(c, keys).nodes), InitNet(c, keys))
  {
    var net := InitNet(c, keys);
    forall i | 0 <= i < |net.nodes| ensures NodeInNet(c, Keys(net.nodes), [], net.nodes[i]) {
      hide NodeInv, Recorded;
      InitInv(c, keys[i], 1, None);
      assert net.nodes[i].key.Some? ==> net.nodes[i].key.value in Keys(net.nodes);
      forall w | RecordedAt(net.nodes[i].votes, None, w) ensures false {
        NewHeightRecords(c.id, 1, c.vals(1), w);
      }
    }
  }

  // The network after a sequence of deliveries; an impossible one does not happen.
  ghost function RunNet(c: Chain, keys: set<PubKey>, net: Net, ds: seq<Delivery>): Net
    requires ChainOK(c) && FaultBound(c, keys) && NetInv(c, keys, net)
    decreases |ds|
  {
    if ds == [] then net
    else if !Possible(net, ds[0]) then RunNet(c, keys, net, ds[1..])
    else
      DeliverInv(c, keys, net, ds[0]);
      RunNet(c, keys, Deliver(c, net, ds[0]), ds[1..])
  }

  lemma {:induction false} RunNetInv(c: Chain, keys: set<PubKey>, net: Net, ds: seq<Delivery>)
    requires ChainOK(c) && FaultBound(c, keys) && NetInv(c, keys, net)
    ensures NetInv(c, keys, RunNet(c, keys, net, ds))
    decreases |ds|
  {
    hide NetInv, Deliver;
    if ds == [] {
    } else if !Possible(net, ds[0]) {
      RunNetInv(c, keys, net, ds[1..]);
    } else {
      DeliverInv(c, keys, net, ds[0]);
      RunNetInv(c, keys, Deliver(c, net, ds[0]), ds[1..]);
    }
  }

  // A network of nodes with these keys, from the start of the chain.
  ghost function RunFromStart(c: Chain, keys: seq<Option<PubKey>>, ds: seq<Delivery>): Net
    requires ChainOK(c) && DistinctKeys(keys) && FaultBound(c, Keys(InitNet(c, keys).nodes))
  {
    InitNetInv(c, keys);
    RunNet(c, Keys(InitNet(c, keys).nodes), InitNet(c, keys), ds)
  }

  // One block; and one header too if the precommits are of one round.
  predicate SameDecision(d: Decided, d': Decided) {
    d.block == d'.block && (d.round == d'.round ==> d.parts == d'.parts)
  }

  // AGREEMENT.  In every run of any number of correct nodes, with less than a
  // third of the voting power faulty at each height, no two nodes decide
  // different blocks at a height, whatever the rounds, nor in one round under
  // different part-set headers; no internal sanity panic fires, and no majority
  // forms behind an invalid block or an impossible header.
  lemma AgreementTheorem(c: Chain, keys: seq<Option<PubKey>>, ds: seq<Delivery>, i: nat, j: nat, h: int)
    requires ChainOK(c) && DistinctKeys(keys) && FaultBound(c, Keys(InitNet(c, keys).nodes))
    ensures var net := RunFromStart(c, keys, ds);
      && (i < |net.nodes| && j < |net.nodes| && h in net.nodes[i].decided && h in net.nodes[j].decided ==>
            SameDecision(net.nodes[i].decided[h], net.nodes[j].decided[h]))
      && (i < |net.nodes| ==> !net.nodes[i].halt.Sanity() && !net.nodes[i].halt.BadMajority())
      && (i < |net.nodes| && h in net.nodes[i].decided ==> c.valid(h, net.nodes[i].decided[h].block))
  {
    hide NetInv, InitNet;
    InitNetInv(c, keys);
    var ks := Keys(InitNet(c, keys).nodes);
    RunNetInv(c, ks, InitNet(c, keys), ds);
    NetAgrees(c, ks, RunFromStart(c, keys, ds), i, j, h);
  }

  lemma NetAgrees(c: Chain, keys: set<PubKey>, net: Net, i: nat, j: nat, h: int)
    requires ChainOK(c) && FaultBound(c, keys) && NetInv(c, keys, net)
    ensures i < |net.nodes| && j < |net.nodes| && h in net.nodes[i].decided && h in net.nodes[j].decided ==>
      SameDecision(net.nodes[i].decided[h], net.nodes[j].decided[h])
    ensures i < |net.nodes| ==> !net.nodes[i].halt.Sanity() && !net.nodes[i].halt.BadMajority()
    ensures i < |net.nodes| && h in net.nodes[i].decided ==> c.valid(h, net.nodes[i].decided[h].block)
  {
    hide LogInv, Quorum, AllSigned, EntriesOf, LockOK, SignedOK, HeldOK;
    if i < |net.nodes| {
      assert NodeInNet(c, keys, net.log, net.nodes[i]);
      if h in net.nodes[i].decided {
        var d := net.nodes[i].decided[h];
        var b := Block(d.block, d.parts);
        QuorumIsValid(c, keys, net.log, h, d.round, Precommit, b);
        if j < |net.nodes| && h in net.nodes[j].decided {
          assert NodeInNet(c, keys, net.log, net.nodes[j]);
          var d' := net.nodes[j].decided[h];
          QuorumsAgree(c, keys, net.log, h, d.round, b, d'.round, Block(d'.block, d'.parts));
        }
      }
    }
  }
}
