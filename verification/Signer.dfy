// privval/priv_validator.go: the file-backed signer that never signs two
// different messages for one height, round and step, whatever crashes.
module Signer {
  import opened Types

  const STEP_NONE := 0
  const STEP_PROPOSE := 1
  const STEP_PREVOTE := 2
  const STEP_PRECOMMIT := 3

  // The Last* fields, in memory or on disk.
  datatype Record = Record(height: int, round: int, step: int, sig: Option<Signature>, bytes: Option<SignBytes>)

  // What GenFilePV saves.
  const BLANK := Record(0, 0, STEP_NONE, None, None)

  datatype Refusal = HeightRegression | RoundRegression | StepRegression | ConflictingData | SigningFailed

  // The process may die before the file is written, or between that and the
  // release of the signature; it is then restarted from the file.
  datatype Crash = NoCrash | BeforeSave | AfterSave

  datatype Outcome = Released(sig: Signature, time: int) | Refused(reason: Refusal) | Panicked | Crashed

  // The fields, the file, and every signature that ever left the signer.
  datatype PV = PV(key: PubKey, last: Record, disk: Record, released: seq<Signature>)

  // A request to sign `bytes`: whether PrivKey.Sign succeeds, and what it adds.
  datatype Request = Request(bytes: SignBytes, signs: bool, salt: nat, crash: Crash)

  // voteToStep; signProposal uses stepPropose.
  function StepOf(b: SignBytes): int {
    match b
    case VoteBytes(_, _, _, kind, _, _) => if kind.Prevote? then STEP_PREVOTE else STEP_PRECOMMIT
    case ProposalBytes(_, _, _, _, _, _, _) => STEP_PROPOSE
  }

  // voteToStep panics on any other vote.
  predicate Signable(b: SignBytes) {
    b.VoteBytes? ==> !b.kind.UnknownType?
  }

  predicate Before(h: int, r: int, k: int, h': int, r': int, k': int) {
    h < h' || (h == h' && (r < r' || (r == r' && k < k')))
  }

  predicate SameHRS(b: SignBytes, b': SignBytes) {
    b.height == b'.height && b.round == b'.round && StepOf(b) == StepOf(b')
  }

  // A record is blank or describes the message it holds a signature for.
  predicate RecordOK(key: PubKey, l: Record) {
    l == BLANK ||
      (l.bytes.Some? && l.sig.Some? && l.sig.value.key == key && l.sig.value.msg == l.bytes.value
       && Signable(l.bytes.value)
       && l.height == l.bytes.value.height && l.round == l.bytes.value.round && l.step == StepOf(l.bytes.value))
  }

  // checkHRS: how the height, round and step fall behind the last ones.
  function Regression(l: Record, height: int, round: int, step: int): (r: Option<Refusal>)
    ensures r.None? <==> !Before(height, round, step, l.height, l.round, l.step)
  {
    if l.height > height then Some(HeightRegression)
    else if l.height == height && l.round > round then Some(RoundRegression)
    else if l.height == height && l.round == round && l.step > step then Some(StepRegression)
    else None
  }

  // What signVote and signProposal answer, and whether by a new signature.
  function Answer(key: PubKey, l: Record, q: Request): (Outcome, bool)
    requires RecordOK(key, l)
  {
    var b := q.bytes;
    var check := Regression(l, b.height, b.round, StepOf(b));
    if !Signable(b) then (Panicked, false)
    else if check.Some? then (Refused(check.value), false)
    else if Before(l.height, l.round, l.step, b.height, b.round, StepOf(b)) then
      if q.signs then (Released(Signature(key, b, q.salt), b.time), true) else (Refused(SigningFailed), false)
    else if b == l.bytes.value then (Released(l.sig.value, b.time), false)
    else if b.(time := l.bytes.value.time) == l.bytes.value then (Released(l.sig.value, l.bytes.value.time), false)
    else (Refused(ConflictingData), false)
  }

  function RecordFor(b: SignBytes, sig: Signature): Record {
    Record(b.height, b.round, StepOf(b), Some(sig), Some(b))
  }

  // signVote or signProposal, and a restart if the process dies on the way.
  function Sign(p: PV, q: Request): (PV, Outcome)
    requires RecordOK(p.key, p.last)
  {
    var (out, isNew) := Answer(p.key, p.last, q);
    var saved := if isNew && q.crash != BeforeSave then
                   p.(last := RecordFor(q.bytes, out.sig), disk := RecordFor(q.bytes, out.sig))
                 else p;
    if q.crash != NoCrash then (Restart(saved), Crashed)
    else if out.Released? then (saved.(released := p.released + [out.sig]), out)
    else (saved, out)
  }

  // LoadFilePV
  function Restart(p: PV): PV {
    p.(last := p.disk)
  }

  // A released signature is no later than the record, and if it is for the same
  // height, round and step then it is over the recorded bytes.
  predicate Covered(l: Record, s: Signature) {
    && !Before(l.height, l.round, l.step, s.msg.height, s.msg.round, StepOf(s.msg))
    && (l.height == s.msg.height && l.round == s.msg.round && l.step == StepOf(s.msg) ==> l.bytes == Some(s.msg))
  }

  predicate AllCovered(key: PubKey, l: Record, released: seq<Signature>) {
    forall i :: 0 <= i < |released| ==> released[i].key == key && Signable(released[i].msg) && Covered(l, released[i])
  }

  predicate OneMessageEach(released: seq<Signature>) {
    forall i, j :: 0 <= i < |released| && 0 <= j < |released| ==>
      (SameHRS(released[i].msg, released[j].msg) ==> released[i].msg == released[j].msg)
  }

  predicate SignerInv(p: PV) {
    && RecordOK(p.key, p.last) && p.last == p.disk
    && AllCovered(p.key, p.disk, p.released) && OneMessageEach(p.released)
  }

  // A record ahead of the old one covers what the old one covered.
  lemma CoveredAhead(key: PubKey, l: Record, l': Record, released: seq<Signature>)
    requires AllCovered(key, l, released) && Before(l.height, l.round, l.step, l'.height, l'.round, l'.step)
    ensures AllCovered(key, l', released)
  {
  }

  // Releasing the signature of the record adds no second message.
  lemma CoveredRelease(key: PubKey, l: Record, released: seq<Signature>, s: Signature)
    requires RecordOK(key, l) && l.bytes == Some(s.msg) && s.key == key
    requires AllCovered(key, l, released) && OneMessageEach(released)
    ensures AllCovered(key, l, released + [s]) && OneMessageEach(released + [s])
  {
  }

  // A new signature is ahead of the record; a reused one is the record's.
  lemma AnswerIsCovered(key: PubKey, l: Record, q: Request)
    requires RecordOK(key, l) && Answer(key, l, q).0.Released?
    ensures var (out, isNew) := Answer(key, l, q);
      && out.sig.key == key && Signable(out.sig.msg)
      && (if isNew then
            out.sig.msg == q.bytes && Before(l.height, l.round, l.step, q.bytes.height, q.bytes.round, StepOf(q.bytes))
          else l.bytes == Some(out.sig.msg))
  {
  }

  // One request, crashing anywhere or not at all.
  lemma SignInv(p: PV, q: Request)
    requires SignerInv(p)
    ensures SignerInv(Sign(p, q).0) && p.released <= Sign(p, q).0.released
  {
    hide AllCovered, OneMessageEach;
    var (out, isNew) := Answer(p.key, p.last, q);
    if out.Released? {
      AnswerIsCovered(p.key, p.last, q);
      var l := if isNew then RecordFor(q.bytes, out.sig) else p.last;
      if isNew { CoveredAhead(p.key, p.last, l, p.released); }
      CoveredRelease(p.key, l, p.released, out.sig);
    }
  }

  // What is released covers the request with the time that is returned, and the
  // time is the caller's unless the same message was signed before.
  lemma ReleasedCoversRequest(p: PV, q: Request)
    requires SignerInv(p) && Sign(p, q).1.Released?
    ensures var out := Sign(p, q).1;
      && out.sig.key == p.key && out.sig.msg == q.bytes.(time := out.time)
      && (out.time != q.bytes.time ==> p.disk.bytes == Some(out.sig.msg) && p.disk.sig == Some(out.sig))
  {
  }

  predicate IsNew(l: Record, q: Request) {
    q.signs && Before(l.height, l.round, l.step, q.bytes.height, q.bytes.round, StepOf(q.bytes))
  }

  predicate Repeats(l: Record, q: Request) {
    l.bytes.Some? && q.bytes.(time := l.bytes.value.time) == l.bytes.value
  }

  // A request is answered exactly when it is ahead of all that was signed, or
  // repeats the last message up to its time.
  lemma ReleasesIff(p: PV, q: Request)
    requires SignerInv(p) && q.crash == NoCrash
    ensures Sign(p, q).1.Released? <==> Signable(q.bytes) && (IsNew(p.disk, q) || Repeats(p.disk, q))
  {
  }

  datatype Op = Ask(q: Request) | Reload

  function Step(p: PV, op: Op): PV
    requires RecordOK(p.key, p.last)
  {
    match op
    case Ask(q) => Sign(p, q).0
    case Reload => Restart(p)
  }

  lemma StepInv(p: PV, op: Op)
    requires SignerInv(p)
    ensures SignerInv(Step(p, op)) && p.released <= Step(p, op).released
  {
    if op.Ask? { SignInv(p, op.q); }
  }

  ghost function Run(p: PV, ops: seq<Op>): PV
    requires SignerInv(p)
    decreases |ops|
  {
    if ops == [] then p
    else
      StepInv(p, ops[0]);
      Run(Step(p, ops[0]), ops[1..])
  }

  lemma {:induction false} RunInv(p: PV, ops: seq<Op>)
    requires SignerInv(p)
    ensures SignerInv(Run(p, ops)) && p.released <= Run(p, ops).released
    decreases |ops|
  {
    if ops != [] {
      StepInv(p, ops[0]);
      RunInv(Step(p, ops[0]), ops[1..]);
    }
  }

  // From a new file, over any run of requests, crashes and reloads: all signatures
  // released for one height, round and step are over the same bytes, and the file
  // is never behind any of them.
  lemma NoDoubleSigning(key: PubKey, ops: seq<Op>)
    ensures var p := Run(PV(key, BLANK, BLANK, []), ops);
      && (forall i, j :: 0 <= i < |p.released| && 0 <= j < |p.released| ==>
            (SameHRS(p.released[i].msg, p.released[j].msg) ==> p.released[i].msg == p.released[j].msg))
      && (forall i :: 0 <= i < |p.released| ==>
            var m := p.released[i].msg;
            !Before(p.disk.height, p.disk.round, p.disk.step, m.height, m.round, StepOf(m)))
  {
    RunInv(PV(key, BLANK, BLANK, []), ops);
  }

  datatype Proposal = Proposal(height: int, round: int, time: int, parts: PartsHeader, polRound: int, polBlock: BlockID,
                               sig: Option<Signature>)
  {
    function Bytes(chain: ChainID): SignBytes {
      ProposalBytes(chain, height, round, parts, polRound, polBlock, time)
    }
  }

  // FilePV in its own form.  `file` is the file it writes.
  class FilePV {
    const key: PubKey

    var lastHeight: int
    var lastRound: int
    var lastStep: int
    var lastSignature: Option<Signature>
    var lastSignBytes: Option<SignBytes>
    var file: Record

    ghost var released: seq<Signature>

    ghost function View(): PV
      reads this
    {
      PV(key, Record(lastHeight, lastRound, lastStep, lastSignature, lastSignBytes), file, released)
    }

    ghost predicate Valid()
      reads this
    {
      SignerInv(View())
    }

    // GenFilePV and Save
    constructor (key: PubKey)
      ensures Valid() && View() == PV(key, BLANK, BLANK, [])
    {
      this.key := key;
      lastHeight, lastRound, lastStep, lastSignature, lastSignBytes := 0, 0, STEP_NONE, None, None;
      file := BLANK;
      released := [];
    }

    // LoadFilePV
    method Load()
      modifies this
      ensures View() == Restart(old(View()))
    {
      lastHeight, lastRound, lastStep := file.height, file.round, file.step;
      lastSignature, lastSignBytes := file.sig, file.bytes;
    }

    // saveSigned up to the write
    method SaveSigned(height: int, round: int, step: int, b: SignBytes, sig: Signature)
      modifies this
      ensures var l := Record(height, round, step, Some(sig), Some(b));
        View() == old(View()).(last := l, disk := l)
    {
      lastHeight, lastRound, lastStep := height, round, step;
      lastSignature, lastSignBytes := Some(sig), Some(b);
      file := Record(lastHeight, lastRound, lastStep, lastSignature, lastSignBytes);
    }

    method CheckHRS(height: int, round: int, step: int) returns (same: bool, err: Option<Refusal>)
      requires Valid() && step != STEP_NONE
      ensures err == Regression(View().last, height, round, step)
      ensures same == (lastHeight == height && lastRound == round && lastStep == step)
      ensures same ==> lastSignBytes.Some? && lastSignature.Some?
    {
      if lastHeight > height { return false, Some(HeightRegression); }
      if lastHeight == height {
        if lastRound > round { return false, Some(RoundRegression); }
        if lastRound == round {
          if lastStep > step { return false, Some(StepRegression); }
          if lastStep == step {
            if lastSignBytes.None? || lastSignature.None? {
              assert false; // "No LastSignature found" and the nil signature panic
            }
            return true, None;
          }
        }
      }
      return false, None;
    }

    // The common part of signVote and signProposal
    method SignBytes(b: SignBytes, signs: bool, salt: nat, crash: Crash) returns (out: Outcome)
      requires Valid() && Signable(b)
      modifies this
      ensures Valid() && (View(), out) == Sign(old(View()), Request(b, signs, salt, crash))
    {
      SignInv(View(), Request(b, signs, salt, crash));
      var same, err := CheckHRS(b.height, b.round, StepOf(b));
      if err.Some? {
        out := Refused(err.value);
      } else if same {
        if b == lastSignBytes.value {
          out := Released(lastSignature.value, b.time);
        } else if lastSignBytes.value.VoteBytes? != b.VoteBytes? {
          assert false; // "LastSignBytes cannot be unmarshalled into ..."
        } else if b.(time := lastSignBytes.value.time) == lastSignBytes.value {
          out := Released(lastSignature.value, lastSignBytes.value.time);
        } else {
          out := Refused(ConflictingData);
        }
      } else if !signs {
        out := Refused(SigningFailed);
      } else {
        var sig := Signature(key, b, salt);
        if crash != BeforeSave { SaveSigned(b.height, b.round, StepOf(b), b, sig); }
        out := Released(sig, b.time);
      }
      if crash != NoCrash {
        Load();
        return Crashed;
      }
      if out.Released? { released := released + [out.sig]; }
    }

    // SignVote fills in the vote's signature, and its time if it was signed before.
    method SignVote(chain: ChainID, vote: Vote, signs: bool, salt: nat, crash: Crash)
      returns (out: Outcome, signed: Vote)
      requires Valid()
      modifies this
      ensures Valid() && (View(), out) == Sign(old(View()), Request(vote.Bytes(chain), signs, salt, crash))
      ensures out.Released? ==>
        && signed == vote.(sig := out.sig, time := out.time)
        && (AddressOf(key) == vote.addr ==> signed.Verify(chain, key))
    {
      signed := vote;
      if vote.kind.UnknownType? {
        out := Panicked;
        if crash != NoCrash {
          Load();
          out := Crashed;
        }
        return;
      }
      if Sign(View(), Request(vote.Bytes(chain), signs, salt, crash)).1.Released? {
        ReleasedCoversRequest(View(), Request(vote.Bytes(chain), signs, salt, crash));
      }
      out := SignBytes(vote.Bytes(chain), signs, salt, crash);
      if out.Released? { signed := vote.(sig := out.sig, time := out.time); }
    }

    method SignProposal(chain: ChainID, proposal: Proposal, signs: bool, salt: nat, crash: Crash)
      returns (out: Outcome, signed: Proposal)
      requires Valid()
      modifies this
      ensures Valid() && (View(), out) == Sign(old(View()), Request(proposal.Bytes(chain), signs, salt, crash))
      ensures out.Released? ==>
        && signed == proposal.(sig := Some(out.sig), time := out.time)
        && out.sig.key == key && out.sig.msg == signed.Bytes(chain)
    {
      signed := proposal;
      if Sign(View(), Request(proposal.Bytes(chain), signs, salt, crash)).1.Released? {
        ReleasedCoversRequest(View(), Request(proposal.Bytes(chain), signs, salt, crash));
      }
      out := SignBytes(proposal.Bytes(chain), signs, salt, crash);
      if out.Released? { signed := proposal.(sig := Some(out.sig), time := out.time); }
    }
  }
}
