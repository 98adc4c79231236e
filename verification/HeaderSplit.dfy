// Agreement is on the block, and on its part-set header exactly if blocks are cut into
// parts in one way only.  Where one can be cut in two ways, there is a run of three
// correct nodes and one faulty validator in which two nodes decide it, one in round 0
// under one header, the other in round 1 under the other.
module HeaderSplit {
  import opened Types
  import opened Consensus
  import opened NodeInvariants
  import opened NodeTheorems
  import opened Agreement
  import opened HeaderAgreement
  import opened Four
  import opened FourNode

  // ---- The network: correct nodes 0, 1 and 2, and the faulty validator 3 ----

  const CORRECT := {0, 1, 2}

  ghost predicate Base(net: Net) {
    && ChainOK(CHAIN) && FaultBound(CHAIN, CORRECT) && NetInv(CHAIN, CORRECT, net)
    && |net.nodes| == 3 && forall k: nat :: k < 3 ==> net.nodes[k].key == Some(k)
  }

  predicate OnLog(log: seq<Agreement.Entry>, v: Vote) {
    exists i :: 0 <= i < |log| && log[i].key == v.sig.key && log[i].signed.vote == v
  }

  predicate MaySend(log: seq<Agreement.Entry>, ins: seq<Input>) {
    forall i :: 0 <= i < |ins| && ins[i].ev.VoteMsg? ==> Unforged(CORRECT, log, ins[i].ev.vote)
  }

  function Stretch(who: nat, ins: seq<Input>): seq<Delivery> {
    seq(|ins|, i requires 0 <= i < |ins| => Delivery(who, ins[i].env, ins[i].ev))
  }

  // What a stretch signs is on the log.
  predicate Logged(s: Node, s': Node, log: seq<Agreement.Entry>)
    requires s.key.Some?
  {
    forall j :: |s.signed| <= j < |s'.signed| ==> Agreement.Entry(s.key.value, s'.signed[j]) in log
  }

  lemma StepLogged(s: Node, s': Node, log: seq<Agreement.Entry>)
    requires s.key.Some?
    ensures Logged(s, s', log + NewEntries(s, s'))
  {
    var log' := log + NewEntries(s, s');
    forall j | |s.signed| <= j < |s'.signed| ensures Agreement.Entry(s.key.value, s'.signed[j]) in log' {
      assert log'[|log| + (j - |s.signed|)] == Agreement.Entry(s.key.value, s'.signed[j]);
    }
  }

  lemma StillMaySend(log: seq<Agreement.Entry>, log': seq<Agreement.Entry>, ins: seq<Input>)
    requires log <= log' && MaySend(log, ins)
    ensures MaySend(log', ins)
  {
    hide Unforged;
    forall i | 0 <= i < |ins| && ins[i].ev.VoteMsg? ensures Unforged(CORRECT, log', ins[i].ev.vote) {
      UnforgedGrows(CORRECT, log, log', ins[i].ev.vote);
    }
  }

  // Node `who` moved as its stretch says, and the others did not.
  ghost predicate Moved(net: Net, net': Net, who: nat, ins: seq<Input>) {
    && Base(net) && Base(net') && who < 3 && NodeInv(CHAIN, net.nodes[who])
    && net'.nodes == net.nodes[who := RunNode(CHAIN, net.nodes[who], ins)]
    && net.log <= net'.log && Logged(net.nodes[who], net'.nodes[who], net'.log)
  }

  lemma FirstMove(net: Net, who: nat, x: Input) returns (net': Net)
    requires Base(net) && who < 3 && MaySend(net.log, [x])
    ensures NodeInv(CHAIN, net.nodes[who]) && Shaped(net.nodes[who]) && Base(net')
    ensures var s' := Handle(CHAIN, x.env, net.nodes[who], x.ev);
      && net'.nodes == net.nodes[who := s'] && net.log <= net'.log && Logged(net.nodes[who], s', net'.log)
      && Advances(net.nodes[who], s') && NodeInv(CHAIN, s')
    ensures Possible(net, Delivery(who, x.env, x.ev)) && net' == Deliver(CHAIN, net, Delivery(who, x.env, x.ev))
  {
    hide LogInv, FaultBound, NodeInv, Handle, Unforged, Advances, Logged;
    var d := Delivery(who, x.env, x.ev);
    var s := net.nodes[who];
    assert NodeInNet(CHAIN, CORRECT, net.log, s);
    assert [x][0].ev == x.ev;
    DeliverInv(CHAIN, CORRECT, net, d);
    net' := Deliver(CHAIN, net, d);
    HandleInv(CHAIN, x.env, s, x.ev);
    KeySame(s, Handle(CHAIN, x.env, s, x.ev));
    StepLogged(s, Handle(CHAIN, x.env, s, x.ev), net.log);
  }

  lemma KeySame(s: Node, s': Node)
    requires Advances(s, s')
    ensures s'.key == s.key && s.signed <= s'.signed
  {
  }

  lemma {:induction false} Moves(net: Net, who: nat, ins: seq<Input>, rest: seq<Delivery>) returns (net': Net)
    requires Base(net) && who < 3 && MaySend(net.log, ins)
    ensures Moved(net, net', who, ins)
    ensures RunNet(CHAIN, CORRECT, net, Stretch(who, ins) + rest) == RunNet(CHAIN, CORRECT, net', rest)
    decreases |ins|
  {
    hide NetInv, FaultBound, ChainOK, NodeInv, Handle, Unforged, Advances, Deliver, Possible, Logged;
    var s := net.nodes[who];
    if ins == [] {
      net' := net;
      assert Logged(s, s, net.log) by { NothingLogged(s, net.log); }
      assert Stretch(who, ins) + rest == rest;
      NodeIn(net, who);
    } else {
      var net1 := FirstMove(net, who, ins[0]);
      StillMaySend(net.log, net1.log, ins[1..]);
      net' := Moves(net1, who, ins[1..], rest);
      var s1 := net1.nodes[who];
      KeySame(s, s1);
      RunNodeInv(CHAIN, s1, ins[1..]);
      KeySame(s1, net'.nodes[who]);
      LoggedJoins(s, s1, net'.nodes[who], net1.log, net'.log);
      var ds := Stretch(who, ins) + rest;
      assert ds[0] == Delivery(who, ins[0].env, ins[0].ev) && ds[1..] == Stretch(who, ins[1..]) + rest;
    }
  }

  lemma NothingLogged(s: Node, log: seq<Agreement.Entry>)
    requires s.key.Some?
    ensures Logged(s, s, log)
  {
  }

  lemma LoggedJoins(s: Node, s1: Node, s2: Node, log1: seq<Agreement.Entry>, log2: seq<Agreement.Entry>)
    requires s.key.Some? && s1.key == s.key && s.signed <= s1.signed <= s2.signed && log1 <= log2
    requires Logged(s, s1, log1) && Logged(s1, s2, log2)
    ensures Logged(s, s2, log2)
  {
    forall j | |s.signed| <= j < |s2.signed| ensures Agreement.Entry(s.key.value, s2.signed[j]) in log2 {
      if j < |s1.signed| { assert Agreement.Entry(s.key.value, s1.signed[j]) in log1; }
    }
  }

  lemma NodeIn(net: Net, who: nat)
    requires Base(net) && who < 3
    ensures NodeInv(CHAIN, net.nodes[who])
  {
    hide LogInv, FaultBound, NodeInv;
    assert NodeInNet(CHAIN, CORRECT, net.log, net.nodes[who]);
  }

  lemma SignedOnLog(net: Net, net': Net, who: nat, ins: seq<Input>, v: Vote)
    requires Moved(net, net', who, ins) && EndsWith(net.nodes[who], net'.nodes[who], v) && v.sig.key == who
    ensures OnLog(net'.log, v)
  {
    hide NodeInv, NetInv, FaultBound;
    var s' := net'.nodes[who];
    var x := Agreement.Entry(who, s'.signed[|s'.signed| - 1]);
    assert x in net'.log;
  }

  // A script of votes that may be sent: two signed by correct nodes, and the faulty one's.
  lemma ThreeMayBeSent(log: seq<Agreement.Entry>, r: int, kind: VoteType, t: Trio, b: BlockID, last: BlockID)
    requires OnLog(log, V(t.i, r, kind, b)) && OnLog(log, V(t.j, r, kind, b)) && t.k == 3
    ensures MaySend(log, Three(r, kind, t, b, last))
  {
    var i :| 0 <= i < |log| && log[i].key == t.i && log[i].signed.vote == V(t.i, r, kind, b);
    var j :| 0 <= j < |log| && log[j].key == t.j && log[j].signed.vote == V(t.j, r, kind, b);
  }

  // One stretch at node `who`, after which the script goes on with `rest`.
  ghost predicate Then(net: Net, who: nat, ins: seq<Input>, net': Net, rest: seq<Delivery>) {
    && Base(net) && Base(net') && who < 3 && net.log <= net'.log
    && (forall k: nat :: k < 3 && k != who ==> net'.nodes[k] == net.nodes[k])
    && RunNet(CHAIN, CORRECT, net, Stretch(who, ins) + rest) == RunNet(CHAIN, CORRECT, net', rest)
  }

  lemma OnLogStays(log: seq<Agreement.Entry>, log': seq<Agreement.Entry>, v: Vote)
    requires log <= log' && OnLog(log, v)
    ensures OnLog(log', v)
  {
    var i :| 0 <= i < |log| && log[i].key == v.sig.key && log[i].signed.vote == v;
    assert log'[i] == log[i];
  }

  lemma SignerOf(i: nat, r: int, kind: VoteType, b: BlockID)
    ensures V(i, r, kind, b).sig.key == i
  {
  }

  lemma OpeningMayBeSent(log: seq<Agreement.Entry>, id: nat, h: PartsHeader)
    ensures MaySend(log, Opening(id, h))
  {
  }

  lemma PlayOpening(net: Net, who: nat, id: nat, h: PartsHeader, rest: seq<Delivery>) returns (net': Net)
    requires Base(net) && who < 3 && h.total >= 0 && net.nodes[who] == Init(CHAIN, Some(who), 1, None)
    ensures Then(net, who, Opening(id, h), net', rest) && Voted(net'.nodes[who], who, 0, id, h, None)
    ensures OnLog(net'.log, V(who, 0, Prevote, Block(id, h)))
  {
    hide NetInv, FaultBound, ChainOK, NodeInv, Init, Opening, Voted, EndsWith, MaySend, OnLog, V;
    OpeningMayBeSent(net.log, id, h);
    net' := Moves(net, who, Opening(id, h), rest);
    Opens(who, id, h);
    SignerOf(who, 0, Prevote, Block(id, h));
    SignedOnLog(net, net', who, Opening(id, h), V(who, 0, Prevote, Block(id, h)));
  }

  // Both correct signers' votes of this kind are on the log.
  predicate Sent(log: seq<Agreement.Entry>, r: int, kind: VoteType, t: Trio, b: BlockID) {
    t.OK() && t.k == 3 && OnLog(log, V(t.i, r, kind, b)) && OnLog(log, V(t.j, r, kind, b))
  }

  lemma PlayPrevotes(net: Net, who: nat, r: int, id: nat, h: PartsHeader, lock: Option<PartsHeader>,
                     t: Trio, b: BlockID, rest: seq<Delivery>) returns (net': Net)
    requires Base(net) && who < 3 && r >= 0 && Voted(net.nodes[who], who, r, id, h, lock)
    requires b.Names(id) && Sent(net.log, r, Prevote, t, b)
    ensures Then(net, who, Three(r, Prevote, t, b, b), net', rest)
    ensures Ready(net'.nodes[who], who, r, All(t, b), id, Pick(id, h, lock).parts)
    ensures OnLog(net'.log, V(who, r, Precommit, b))
  {
    hide NetInv, FaultBound, ChainOK, NodeInv, Three, Voted, Ready, EndsWith, MaySend, OnLog, V;
    ThreeMayBeSent(net.log, r, Prevote, t, b, b);
    net' := Moves(net, who, Three(r, Prevote, t, b, b), rest);
    ThreePrevotes(net.nodes[who], who, r, id, h, lock, t, b);
    SignerOf(who, r, Precommit, b);
    SignedOnLog(net, net', who, Three(r, Prevote, t, b, b), V(who, r, Precommit, b));
  }

  lemma PlayPrecommits(net: Net, who: nat, r: int, pv: Ballots, t: Trio, b: BlockID, rest: seq<Delivery>)
    returns (net': Net)
    requires Base(net) && who < 3 && r >= 0 && b.Block? && Ready(net.nodes[who], who, r, pv, b.id, b.parts)
    requires Sent(net.log, r, Precommit, t, b)
    ensures Then(net, who, Three(r, Precommit, t, b, b), net', rest)
    ensures net'.nodes[who].decided == map[1 := Decided(b.id, b.parts, r)]
  {
    hide NetInv, FaultBound, ChainOK, NodeInv, Three, Ready, MaySend, OnLog, V;
    ThreeMayBeSent(net.log, r, Precommit, t, b, b);
    net' := Moves(net, who, Three(r, Precommit, t, b, b), rest);
    ThreePrecommits(net.nodes[who], who, r, pv, t, b);
  }

  lemma SecondRoundMayBeSent(log: seq<Agreement.Entry>, t: Trio, b: BlockID, id: nat, h: PartsHeader)
    requires Sent(log, 0, Precommit, t, b)
    ensures MaySend(log, SecondRound(t, b, id, h))
  {
    ThreeMayBeSent(log, 0, Precommit, t, b, NilBlock);
    hide Unforged, Three, OnLog;
    var ins := SecondRound(t, b, id, h);
    forall i | 0 <= i < |ins| && ins[i].ev.VoteMsg? ensures Unforged(CORRECT, log, ins[i].ev.vote) {
      var first := Three(0, Precommit, t, b, NilBlock);
      assert i < |first| ==> ins[i] == first[i];
    }
  }

  lemma PlaySecondRound(net: Net, who: nat, step: int, pv: Ballots, t: Trio, b: BlockID,
                        id: nat, h: PartsHeader, lock: Option<PartsHeader>, rest: seq<Delivery>) returns (net': Net)
    requires Base(net) && who < 3 && b.Block? && Sent(net.log, 0, Precommit, t, b) && h.total >= 0
    requires var s := net.nodes[who];
      At(s, who, 0, step) && Boxes(s, 0, pv, NONE) && EmptyAt(s, 1) && Lock(s, id, lock)
    requires (step == PREVOTE && pv == NONE) || step == PRECOMMIT
    ensures Then(net, who, SecondRound(t, b, id, h), net', rest) && Voted(net'.nodes[who], who, 1, id, h, lock)
    ensures OnLog(net'.log, V(who, 1, Prevote, Pick(id, h, lock)))
  {
    hide NetInv, FaultBound, ChainOK, NodeInv, SecondRound, Voted, EndsWith, MaySend, OnLog, V, At, Boxes;
    SecondRoundMayBeSent(net.log, t, b, id, h);
    net' := Moves(net, who, SecondRound(t, b, id, h), rest);
    GoesOn(net.nodes[who], who, step, pv, t, b, id, h, lock);
    SignerOf(who, 1, Prevote, Pick(id, h, lock));
    SignedOnLog(net, net', who, SecondRound(t, b, id, h), V(who, 1, Prevote, Pick(id, h, lock)));
  }

  // ---- The script ----

  const FIRST := Trio(0, 2, 3)    // prevotes of round 0
  const SECOND := Trio(1, 2, 3)   // precommits of round 0
  const THIRD := Trio(0, 1, 3)    // prevotes and precommits of round 1

  function LastAct(b: BlockID): seq<Delivery> {
    Stretch(0, Three(1, Prevote, THIRD, b, b)) +
    (Stretch(1, Three(1, Prevote, THIRD, b, b)) + (Stretch(0, Three(1, Precommit, THIRD, b, b)) + []))
  }

  function MiddleAct(id: nat, p: PartsHeader, q: PartsHeader): seq<Delivery> {
    Stretch(0, SecondRound(SECOND, Block(id, p), id, q)) +
    (Stretch(1, SecondRound(SECOND, Block(id, p), id, q)) + LastAct(Block(id, q)))
  }

  function FirstAct(id: nat, p: PartsHeader, q: PartsHeader): seq<Delivery> {
    var b := Block(id, p);
    Stretch(2, Three(0, Prevote, FIRST, b, b)) +
    (Stretch(1, Three(0, Prevote, FIRST, b, b)) + (Stretch(2, Three(0, Precommit, SECOND, b, b)) + MiddleAct(id, p, q)))
  }

  function Openings(id: nat, p: PartsHeader, q: PartsHeader, rest: seq<Delivery>): seq<Delivery> {
    Stretch(0, Opening(id, p)) + (Stretch(2, Opening(id, p)) + (Stretch(1, Opening(id, q)) + rest))
  }

  function Script(id: nat, p: PartsHeader, q: PartsHeader): seq<Delivery> {
    Openings(id, p, q, FirstAct(id, p, q))
  }

  // Node 0 decides under `q` in round 1, node 2 under `p` in round 0.
  predicate SplitDecision(net: Net, id: nat, p: PartsHeader, q: PartsHeader) {
    && |net.nodes| == 3 && net.nodes[0].decided == map[1 := Decided(id, q, 1)]
    && net.nodes[2].decided == map[1 := Decided(id, p, 0)]
  }

  lemma PlayLastAct(net: Net, id: nat, p: PartsHeader, q: PartsHeader)
    requires Base(net) && net.nodes[2].decided == map[1 := Decided(id, p, 0)]
    requires Voted(net.nodes[0], 0, 1, id, q, None) && Voted(net.nodes[1], 1, 1, id, q, Some(q))
    requires Sent(net.log, 1, Prevote, THIRD, Block(id, q))
    ensures SplitDecision(RunNet(CHAIN, CORRECT, net, LastAct(Block(id, q))), id, p, q)
  {
    hide Base, Voted, Ready, Three, All, OnLog, V, Stretch, Pick;
    var b := Block(id, q);
    var three, four := Three(1, Prevote, THIRD, b, b), Three(1, Precommit, THIRD, b, b);
    VoteHeaders(id, q);
    var net1 := PlayPrevotes(net, 0, 1, id, q, None, THIRD, b, Stretch(1, three) + (Stretch(0, four) + []));
    OnLogStays(net.log, net1.log, V(0, 1, Prevote, b));
    OnLogStays(net.log, net1.log, V(1, 1, Prevote, b));
    var net2 := PlayPrevotes(net1, 1, 1, id, q, Some(q), THIRD, b, Stretch(0, four) + []);
    OnLogStays(net1.log, net2.log, V(0, 1, Precommit, b));
    var net3 := PlayPrecommits(net2, 0, 1, All(THIRD, b), THIRD, b, []);
    BaseSize(net3);
  }

  lemma BaseSize(net: Net)
    requires Base(net)
    ensures |net.nodes| == 3 && RunNet(CHAIN, CORRECT, net, []) == net
  {
  }

  lemma VoteHeaders(id: nat, q: PartsHeader)
    ensures Pick(id, q, None) == Pick(id, q, Some(q)) == Block(id, q)
  {
  }

  lemma PlayMiddleAct(net: Net, id: nat, p: PartsHeader, q: PartsHeader)
    requires Base(net) && net.nodes[2].decided == map[1 := Decided(id, p, 0)] && q.total >= 0
    requires Voted(net.nodes[0], 0, 0, id, p, None)
    requires Ready(net.nodes[1], 1, 0, All(FIRST, Block(id, p)), id, q)
    requires Sent(net.log, 0, Precommit, SECOND, Block(id, p))
    ensures SplitDecision(RunNet(CHAIN, CORRECT, net, MiddleAct(id, p, q)), id, p, q)
  {
    hide Base, At, Boxes, Lock, SecondRound, LastAct, OnLog, V, Stretch, Pick, All;
    var b, b' := Block(id, p), Block(id, q);
    var on := SecondRound(SECOND, b, id, q);
    VoteHeaders(id, q);
    var net1 := PlaySecondRound(net, 0, PREVOTE, NONE, SECOND, b, id, q, None, Stretch(1, on) + LastAct(b'));
    OnLogStays(net.log, net1.log, V(1, 0, Precommit, b));
    OnLogStays(net.log, net1.log, V(2, 0, Precommit, b));
    var net2 := PlaySecondRound(net1, 1, PRECOMMIT, All(FIRST, b), SECOND, b, id, q, Some(q), LastAct(b'));
    OnLogStays(net1.log, net2.log, V(0, 1, Prevote, b'));
    PlayLastAct(net2, id, p, q);
  }

  lemma PlayFirstAct(net: Net, id: nat, p: PartsHeader, q: PartsHeader)
    requires Base(net) && q.total >= 0 && Voted(net.nodes[0], 0, 0, id, p, None)
    requires Voted(net.nodes[1], 1, 0, id, q, None) && Voted(net.nodes[2], 2, 0, id, p, None)
    requires Sent(net.log, 0, Prevote, FIRST, Block(id, p))
    ensures SplitDecision(RunNet(CHAIN, CORRECT, net, FirstAct(id, p, q)), id, p, q)
  {
    hide Base, Voted, Ready, Three, All, MiddleAct, OnLog, V, Stretch, Pick;
    var b := Block(id, p);
    var three, four := Three(0, Prevote, FIRST, b, b), Three(0, Precommit, SECOND, b, b);
    VoteHeaders(id, p);
    VoteHeaders(id, q);
    var net1 := PlayPrevotes(net, 2, 0, id, p, None, FIRST, b,
                             Stretch(1, three) + (Stretch(2, four) + MiddleAct(id, p, q)));
    OnLogStays(net.log, net1.log, V(0, 0, Prevote, b));
    OnLogStays(net.log, net1.log, V(2, 0, Prevote, b));
    var net2 := PlayPrevotes(net1, 1, 0, id, q, None, FIRST, b, Stretch(2, four) + MiddleAct(id, p, q));
    OnLogStays(net1.log, net2.log, V(2, 0, Precommit, b));
    var net3 := PlayPrecommits(net2, 2, 0, All(FIRST, b), SECOND, b, MiddleAct(id, p, q));
    OnLogStays(net2.log, net3.log, V(1, 0, Precommit, b));
    OnLogStays(net2.log, net3.log, V(2, 0, Precommit, b));
    PlayMiddleAct(net3, id, p, q);
  }

  const KEYS := [Some(0), Some(1), Some(2)]

  lemma StartsBase()
    ensures DistinctKeys(KEYS) && Keys(InitNet(CHAIN, KEYS).nodes) == CORRECT && Base(InitNet(CHAIN, KEYS))
    ensures forall k: nat :: k < 3 ==> InitNet(CHAIN, KEYS).nodes[k] == Init(CHAIN, Some(k), 1, None)
  {
    hide NetInv, Init;
    AssumptionsHold();
    var net := InitNet(CHAIN, KEYS);
    forall k: nat | k < 3 ensures net.nodes[k].key == Some(k) { StartKey(k); }
    assert 0 in Keys(net.nodes) && 1 in Keys(net.nodes) && 2 in Keys(net.nodes);
    InitNetInv(CHAIN, KEYS);
  }

  lemma StartKey(k: PubKey)
    ensures Init(CHAIN, Some(k), 1, None).key == Some(k)
  {
  }

  // ---- When headers agree ----

  // What parts make up: the set under `header` is complete, and decodes to `block`.
  datatype Made = Made(header: PartsHeader, block: nat)

  // Parts make up nothing but what is in `made`.
  ghost predicate Within(made: iset<Made>, ds: seq<Delivery>) {
    forall i :: 0 <= i < |ds| && ds[i].ev.PartMsg? && ds[i].ev.outcome.Completes? ==>
      Made(ds[i].ev.header, ds[i].ev.outcome.block) in made
  }

  // Any two nodes that decide at a height decide one block under one header.
  predicate OneHeader(nodes: seq<Node>) {
    forall i, j, h :: 0 <= i < |nodes| && 0 <= j < |nodes| && h in nodes[i].decided && h in nodes[j].decided ==>
      nodes[i].decided[h].block == nodes[j].decided[h].block && nodes[i].decided[h].parts == nodes[j].decided[h].parts
  }

  ghost predicate Assumed(c: Chain, keys: seq<Option<PubKey>>) {
    ChainOK(c) && DistinctKeys(keys) && FaultBound(c, Keys(InitNet(c, keys).nodes))
  }

  ghost predicate AlwaysOneHeader(made: iset<Made>) {
    forall c, keys, ds :: Assumed(c, keys) && Within(made, ds) ==> OneHeader(RunFromStart(c, keys, ds).nodes)
  }

  // Each block under one header at most, among those a part set can have.
  ghost predicate CutOneWay(made: iset<Made>) {
    forall x, y :: x in made && y in made && x.block == y.block && x.header.total >= 0 && y.header.total >= 0 ==>
      x.header == y.header
  }

  lemma WithinJoin(made: iset<Made>, ds: seq<Delivery>, more: seq<Delivery>)
    requires Within(made, ds) && Within(made, more)
    ensures Within(made, ds + more)
  {
  }

  lemma StretchesWithin(made: iset<Made>, who: nat, r: int, kind: VoteType, t: Trio, b: BlockID,
                        id: nat, h: PartsHeader)
    requires Made(h, id) in made
    ensures Within(made, Stretch(who, Opening(id, h))) && Within(made, Stretch(who, SecondRound(t, b, id, h)))
    ensures Within(made, Stretch(who, Three(r, kind, t, b, b)))
  {
  }

  lemma ScriptWithin(made: iset<Made>, id: nat, p: PartsHeader, q: PartsHeader)
    requires Made(p, id) in made && Made(q, id) in made
    ensures Within(made, Script(id, p, q))
  {
    hide Within, Stretch, Opening, SecondRound, Three;
    var b, b' := Block(id, p), Block(id, q);
    var tail := Stretch(0, Three(1, Precommit, THIRD, b', b'));
    assert tail + [] == tail;
    StretchesWithin(made, 0, 1, Precommit, THIRD, b', id, q);
    TwiceWithin(made, 1, Prevote, THIRD, b', id, q, 0, 1, tail);
    StretchesWithin(made, 1, 0, Prevote, SECOND, b, id, q);
    StretchesWithin(made, 0, 0, Prevote, SECOND, b, id, q);
    var on := SecondRound(SECOND, b, id, q);
    WithinJoin(made, Stretch(1, on), LastAct(b'));
    WithinJoin(made, Stretch(0, on), Stretch(1, on) + LastAct(b'));
    StretchesWithin(made, 2, 0, Precommit, SECOND, b, id, p);
    WithinJoin(made, Stretch(2, Three(0, Precommit, SECOND, b, b)), MiddleAct(id, p, q));
    TwiceWithin(made, 0, Prevote, FIRST, b, id, p, 2, 1,
                Stretch(2, Three(0, Precommit, SECOND, b, b)) + MiddleAct(id, p, q));
    OpeningsWithin(made, id, p, q, FirstAct(id, p, q));
  }

  lemma TwiceWithin(made: iset<Made>, r: int, kind: VoteType, t: Trio, b: BlockID, id: nat, h: PartsHeader,
                    i: nat, j: nat, rest: seq<Delivery>)
    requires Made(h, id) in made && Within(made, rest)
    ensures Within(made, Stretch(i, Three(r, kind, t, b, b)) + (Stretch(j, Three(r, kind, t, b, b)) + rest))
  {
    hide Within, Stretch, Opening, SecondRound, Three;
    StretchesWithin(made, i, r, kind, t, b, id, h);
    StretchesWithin(made, j, r, kind, t, b, id, h);
    WithinJoin(made, Stretch(j, Three(r, kind, t, b, b)), rest);
    WithinJoin(made, Stretch(i, Three(r, kind, t, b, b)), Stretch(j, Three(r, kind, t, b, b)) + rest);
  }

  lemma OpeningsWithin(made: iset<Made>, id: nat, p: PartsHeader, q: PartsHeader, rest: seq<Delivery>)
    requires Made(p, id) in made && Made(q, id) in made && Within(made, rest)
    ensures Within(made, Openings(id, p, q, rest))
  {
    hide Within, Stretch, Opening, SecondRound, Three;
    StretchesWithin(made, 0, 0, Prevote, FIRST, NilBlock, id, p);
    StretchesWithin(made, 2, 0, Prevote, FIRST, NilBlock, id, p);
    StretchesWithin(made, 1, 0, Prevote, FIRST, NilBlock, id, q);
    WithinJoin(made, Stretch(1, Opening(id, q)), rest);
    WithinJoin(made, Stretch(2, Opening(id, p)), Stretch(1, Opening(id, q)) + rest);
    WithinJoin(made, Stretch(0, Opening(id, p)), Stretch(2, Opening(id, p)) + (Stretch(1, Opening(id, q)) + rest));
  }

  // For any two headers there is a run, with one of four equal validators faulty, in
  // which two correct nodes decide a block in different rounds, each under its header.
  // If the headers are the same, this is a run in which agreement is about something.
  lemma HeadersSplit(id: nat, p: PartsHeader, q: PartsHeader)
    requires p.total >= 0 && q.total >= 0
    ensures ChainOK(CHAIN) && DistinctKeys(KEYS) && FaultBound(CHAIN, Keys(InitNet(CHAIN, KEYS).nodes))
    ensures SplitDecision(RunFromStart(CHAIN, KEYS, Script(id, p, q)), id, p, q)
  {
    hide NetInv, FaultBound, ChainOK, Voted, Init, InitNet, Opening, FirstAct, OnLog, V, Stretch;
    StartsBase();
    var net, b := InitNet(CHAIN, KEYS), Block(id, p);
    var third := Stretch(1, Opening(id, q)) + FirstAct(id, p, q);
    var net1 := PlayOpening(net, 0, id, p, Stretch(2, Opening(id, p)) + third);
    var net2 := PlayOpening(net1, 2, id, p, third);
    OnLogStays(net1.log, net2.log, V(0, 0, Prevote, b));
    var net3 := PlayOpening(net2, 1, id, q, FirstAct(id, p, q));
    OnLogStays(net2.log, net3.log, V(0, 0, Prevote, b));
    OnLogStays(net2.log, net3.log, V(2, 0, Prevote, b));
    PlayFirstAct(net3, id, p, q);
  }

  // Correct nodes always agree on the header, in every run on every chain, if and only
  // if each block is cut into parts in one way only.
  lemma OneHeaderIff(made: iset<Made>)
    ensures AlwaysOneHeader(made) <==> CutOneWay(made)
  {
    if CutOneWay(made) {
      forall c, keys, ds | Assumed(c, keys) && Within(made, ds) ensures OneHeader(RunFromStart(c, keys, ds).nodes) {
        OneCutAgrees(made, c, keys, ds);
      }
    } else {
      var x, y :| x in made && y in made && x.block == y.block && x.header.total >= 0 && y.header.total >= 0
                  && x.header != y.header;
      TwoCutsSplit(made, x.block, x.header, y.header);
    }
  }

  lemma OneCutAgrees(made: iset<Made>, c: Chain, keys: seq<Option<PubKey>>, ds: seq<Delivery>)
    requires CutOneWay(made) && Assumed(c, keys) && Within(made, ds)
    ensures OneHeader(RunFromStart(c, keys, ds).nodes)
  {
    hide FaultBound, ChainOK, RunFromStart;
    var cut: Cut := (b: nat) =>
      if exists h :: Made(h, b) in made && h.total >= 0 then var h :| Made(h, b) in made && h.total >= 0; h
      else NO_PARTS;
    assert AllWellCut(cut, ds);
    var nodes := RunFromStart(c, keys, ds).nodes;
    forall i, j, h | 0 <= i < |nodes| && 0 <= j < |nodes| && h in nodes[i].decided && h in nodes[j].decided
      ensures nodes[i].decided[h].block == nodes[j].decided[h].block
        && nodes[i].decided[h].parts == nodes[j].decided[h].parts
    {
      HeadersAgree(cut, c, keys, ds, i, j, h);
    }
  }

  lemma TwoCutsSplit(made: iset<Made>, id: nat, p: PartsHeader, q: PartsHeader)
    requires Made(p, id) in made && Made(q, id) in made && p != q && p.total >= 0 && q.total >= 0
    ensures !AlwaysOneHeader(made)
  {
    hide FaultBound, ChainOK, RunFromStart, Script, Within;
    HeadersSplit(id, p, q);
    ScriptWithin(made, id, p, q);
    var nodes := RunFromStart(CHAIN, KEYS, Script(id, p, q)).nodes;
    assert 1 in nodes[0].decided && 1 in nodes[2].decided;
    assert !OneHeader(nodes);
    assert Assumed(CHAIN, KEYS);
  }
}
