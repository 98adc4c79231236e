// state/store.go and updateState of state/execution.go: the validators and the
// consensus parameters of every height, stored in full only where they change.
module History {
  import opened Arith
  import opened Types
  import opened Rotation
  import opened ValidatorSets

  // Consensus parameters, up to their encoding; 0 is the zero value.
  type Params = nat
  const EMPTY: Params := 0

  // The parts of an application's answers that change the state.
  datatype Responses = Responses(valUpdates: seq<Validator>, params: Option<Params>, paramsValid: bool)

  datatype ValidatorsInfo = ValidatorsInfo(vals: Option<seq<Validator>>, lastChanged: int)
  datatype ParamsInfo = ParamsInfo(params: Params, lastChanged: int)

  datatype Loaded<T> = Found(value: T) | NotFound

  // A list of validators without their accumulators.
  function Static(vals: seq<Validator>): seq<(Address, PubKey, Int64)> {
    seq(|vals|, i requires 0 <= i < |vals| => (vals[i].addr, vals[i].key, vals[i].power))
  }

  lemma StaticSame(a: seq<Validator>, b: seq<Validator>)
    ensures SameButAccum(a, b) ==> Static(a) == Static(b)
  {
  }

  lemma {:induction false} ChargesKeep(vals: seq<Validator>, n: nat)
    requires vals != []
    ensures SameButAccum(vals, Charges(vals, n))
  {
    if n > 0 { ChargesKeep(vals, n - 1); }
  }

  lemma IncrementKeeps(vals: seq<Validator>, times: Times)
    requires vals != []
    ensures Static(Increment(vals, times)) == Static(vals)
  {
    var b := Boost(vals, times);
    ChargesKeep(b, times);
    assert SameButAccum(vals, b);
    StaticSame(vals, Increment(vals, times));
  }

  // ---- Sparse against dense: `dense[h - 1]` is what was saved for height h ----

  // The entry of height `h` leads to a full one holding the same validators.
  predicate ValsRecorded(info: map<int, ValidatorsInfo>, dense: seq<seq<Validator>>, h: int)
    requires 1 <= h <= |dense|
  {
    && h in info
    && var c := info[h].lastChanged;
       && 1 <= c <= h && c in info && info[c].vals.Some?
       && Static(info[c].vals.value) == Static(dense[h - 1])
       && (info[h].vals.Some? ==> c == h)
  }

  predicate ParamsRecorded(info: map<int, ParamsInfo>, dense: seq<Params>, h: int)
    requires 1 <= h <= |dense|
  {
    && h in info
    && var c := info[h].lastChanged;
       && 1 <= c <= h && c in info && info[c].params == dense[h - 1]
       && (info[h].params != EMPTY ==> c == h)
  }

  ghost predicate ValsHistory(info: map<int, ValidatorsInfo>, dense: seq<seq<Validator>>) {
    && (forall h :: h in info <==> 1 <= h <= |dense|)
    && (forall h :: 1 <= h <= |dense| ==> ValsRecorded(info, dense, h))
  }

  ghost predicate ParamsHistory(info: map<int, ParamsInfo>, dense: seq<Params>) {
    && (forall h :: h in info <==> 1 <= h <= |dense|)
    && (forall h :: 1 <= h <= |dense| ==> ParamsRecorded(info, dense, h))
  }

  // What saveValidatorsInfo and saveConsensusParamsInfo write for height `h`.
  function ValsEntry(h: int, changed: int, vals: seq<Validator>): ValidatorsInfo {
    ValidatorsInfo(if changed == h then Some(vals) else None, changed)
  }

  function ParamsEntry(h: int, changed: int, params: Params): ParamsInfo {
    ParamsInfo(if changed == h then params else EMPTY, changed)
  }

  // The change height is the next height, or nothing changed since the last one.
  predicate ValsNext(info: map<int, ValidatorsInfo>, dense: seq<seq<Validator>>, changed: int, vals: seq<Validator>) {
    var n := |dense|;
    changed == n + 1 || (n > 0 && n in info && info[n].lastChanged == changed && Static(dense[n - 1]) == Static(vals))
  }

  predicate ParamsNext(info: map<int, ParamsInfo>, dense: seq<Params>, changed: int, params: Params) {
    var n := |dense|;
    changed == n + 1 || (n > 0 && n in info && info[n].lastChanged == changed && dense[n - 1] == params)
  }

  // Saving one more height extends the dense history by one.
  lemma SaveVals(info: map<int, ValidatorsInfo>, dense: seq<seq<Validator>>, changed: int, vals: seq<Validator>)
    requires ValsHistory(info, dense) && ValsNext(info, dense, changed, vals)
    ensures ValsHistory(info[|dense| + 1 := ValsEntry(|dense| + 1, changed, vals)], dense + [vals])
  {
    hide Static;
    var n := |dense|;
    var info', dense' := info[n + 1 := ValsEntry(n + 1, changed, vals)], dense + [vals];
    assert n > 0 ==> ValsRecorded(info, dense, n);
    forall h | 1 <= h <= n + 1 ensures ValsRecorded(info', dense', h) {
      if h <= n { assert ValsRecorded(info, dense, h); }
    }
  }

  lemma SaveParams(info: map<int, ParamsInfo>, dense: seq<Params>, changed: int, params: Params)
    requires ParamsHistory(info, dense) && ParamsNext(info, dense, changed, params)
    ensures ParamsHistory(info[|dense| + 1 := ParamsEntry(|dense| + 1, changed, params)], dense + [params])
  {
    var n := |dense|;
    var info', dense' := info[n + 1 := ParamsEntry(n + 1, changed, params)], dense + [params];
    assert n > 0 ==> ParamsRecorded(info, dense, n);
    forall h | 1 <= h <= n + 1 ensures ParamsRecorded(info', dense', h) {
      if h <= n { assert ParamsRecorded(info, dense, h); }
    }
  }

  // The validators after one block: the updates folded in, then one round of rotation.
  ghost predicate Followed(before: seq<Validator>, updates: seq<Validator>, after: seq<Validator>) {
    exists next :: next != [] && Sorted(next) && after == Increment(next, 1)
      && Contents(next) == ApplyUpdates(Contents(before), updates)
  }

  // The state and its database.
  class StateStore {
    var height: int
    var validators: ValidatorSet
    var valsChanged: int
    var params: Params
    var paramsChanged: int

    var valsInfo: map<int, ValidatorsInfo>
    var paramsInfo: map<int, ParamsInfo>

    // The dense history.
    ghost var valsAt: seq<seq<Validator>>
    ghost var paramsAt: seq<Params>

    // `saved` is the number of heights the database covers.
    ghost predicate Covers(saved: int)
      reads this
    {
      && 0 <= height && |valsAt| == |paramsAt| == saved
      && ValsHistory(valsInfo, valsAt) && ParamsHistory(paramsInfo, paramsAt)
    }

    ghost predicate Valid()
      reads this, validators
    {
      && Covers(height + 1) && validators.Valid()
      && valsInfo[height + 1].lastChanged == valsChanged && valsAt[height] == validators.validators
      && paramsInfo[height + 1].lastChanged == paramsChanged && paramsAt[height] == params
    }

    // MakeGenesisState and SaveState
    constructor (genesis: ValidatorSet, params: Params)
      requires genesis.Valid()
      ensures Valid() && height == 0 && validators == genesis && this.params == params
      ensures valsAt == [genesis.validators] && paramsAt == [params]
    {
      height, validators, valsChanged, this.params, paramsChanged := 0, genesis, 1, params, 1;
      valsInfo, paramsInfo, valsAt, paramsAt := map[], map[], [], [];
      new;
      SaveState();
    }

    // saveState
    method SaveState()
      requires Covers(height) && validators.Valid()
      requires ValsNext(valsInfo, valsAt, valsChanged, validators.validators)
      requires ParamsNext(paramsInfo, paramsAt, paramsChanged, params)
      modifies this`valsInfo, this`paramsInfo, this`valsAt, this`paramsAt
      ensures Valid()
      ensures valsAt == old(valsAt) + [validators.validators] && paramsAt == old(paramsAt) + [params]
    {
      SaveVals(valsInfo, valsAt, valsChanged, validators.validators);
      SaveParams(paramsInfo, paramsAt, paramsChanged, params);
      var nextHeight := height + 1;
      SaveValidatorsInfo(nextHeight, valsChanged, validators.validators);
      SaveConsensusParamsInfo(nextHeight, paramsChanged, params);
    }

    method SaveValidatorsInfo(nextHeight: int, changeHeight: int, vals: seq<Validator>)
      modifies this`valsInfo, this`valsAt
      ensures valsInfo == old(valsInfo)[nextHeight := ValsEntry(nextHeight, changeHeight, vals)]
      ensures valsAt == old(valsAt) + [vals]
    {
      var info := ValidatorsInfo(None, changeHeight);
      if changeHeight == nextHeight { info := info.(vals := Some(vals)); }
      valsInfo := valsInfo[nextHeight := info];
      valsAt := valsAt + [vals];
    }

    method SaveConsensusParamsInfo(nextHeight: int, changeHeight: int, params: Params)
      modifies this`paramsInfo, this`paramsAt
      ensures paramsInfo == old(paramsInfo)[nextHeight := ParamsEntry(nextHeight, changeHeight, params)]
      ensures paramsAt == old(paramsAt) + [params]
    {
      var info := ParamsInfo(EMPTY, changeHeight);
      if changeHeight == nextHeight { info := info.(params := params); }
      paramsInfo := paramsInfo[nextHeight := info];
      paramsAt := paramsAt + [params];
    }

    // LoadValidators: found exactly for the heights up to the next one, and then it
    // is the set in force there, accumulators aside.
    method LoadValidators(h: int) returns (r: Loaded<seq<Validator>>)
      requires Valid()
      ensures r.Found? <==> 1 <= h <= height + 1
      ensures r.Found? ==> Static(r.value) == Static(valsAt[h - 1])
    {
      if h !in valsInfo { return NotFound; }
      assert ValsRecorded(valsInfo, valsAt, h);
      var info := valsInfo[h];
      if info.vals.None? {
        if info.lastChanged !in valsInfo {
          assert false; // "Couldn't find validators at height ..."
        }
        info := valsInfo[info.lastChanged];
      }
      return Found(info.vals.value);
    }

    // LoadConsensusParams: the zero value doubles as the mark of a sparse entry,
    // which is harmless because the full entry then holds the zero value too.
    method LoadConsensusParams(h: int) returns (r: Loaded<Params>)
      requires Valid()
      ensures r.Found? <==> 1 <= h <= height + 1
      ensures r.Found? ==> r.value == paramsAt[h - 1]
    {
      if h !in paramsInfo { return NotFound; }
      assert ParamsRecorded(paramsInfo, paramsAt, h);
      var info := paramsInfo[h];
      if info.params == EMPTY {
        if info.lastChanged !in paramsInfo {
          assert false; // "Couldn't find consensus params at height ..."
        }
        info := paramsInfo[info.lastChanged];
      }
      return Found(info.params);
    }

    // The validators part of updateState: None where IncrementAccum finds nobody.
    method NextValidators(updates: seq<Validator>) returns (next: ValidatorSet, ok: bool, changed: int)
      requires validators.Valid()
      ensures fresh(next) && next.Valid()
      ensures changed == if |updates| > 0 then height + 2 else valsChanged
      ensures ok ==> Followed(validators.validators, updates, next.validators)
      ensures ok && updates == [] ==> Static(next.validators) == Static(validators.validators)
    {
      next := new ValidatorSet.Copy(validators);
      changed := valsChanged;
      if |updates| > 0 {
        var done := next.UpdateValidators(updates);
        changed := height + 2;
      }
      if next.validators == [] { return next, false, changed; }
      ghost var updated := next.validators;
      next.IncrementAccum(1);
      IncrementKeeps(updated, 1);
      ok := true;
    }

    // updateState and SaveState for the next block; false where updateState fails.
    method Apply(res: Responses) returns (ok: bool)
      requires Valid()
      modifies this
      ensures Valid()
      ensures !ok ==> height == old(height) && valsAt == old(valsAt) && paramsAt == old(paramsAt)
      ensures ok ==>
        && height == old(height) + 1 && old(valsAt) < valsAt && old(paramsAt) < paramsAt
        && Followed(old(validators.validators), res.valUpdates, validators.validators)
        && params == if res.params.Some? then res.params.value else old(params)
    {
      hide ValsHistory, ParamsHistory, Static, Followed;
      var next, changed;
      next, ok, changed := NextValidators(res.valUpdates);
      if !ok { return; }
      var nextParams, nextParamsChanged := params, paramsChanged;
      if res.params.Some? {
        nextParams := res.params.value;
        if !res.paramsValid { return false; }
        nextParamsChanged := height + 2;
      }
      LastSaved(valsInfo, valsAt, paramsInfo, paramsAt);
      height, validators, valsChanged := height + 1, next, changed;
      params, paramsChanged := nextParams, nextParamsChanged;
      SaveState();
    }
  }

  lemma LastSaved(vals: map<int, ValidatorsInfo>, valsAt: seq<seq<Validator>>,
                  params: map<int, ParamsInfo>, paramsAt: seq<Params>)
    requires ValsHistory(vals, valsAt) && ParamsHistory(params, paramsAt)
    ensures |valsAt| > 0 ==> |valsAt| in vals
    ensures |paramsAt| > 0 ==> |paramsAt| in params
  {
  }
}
