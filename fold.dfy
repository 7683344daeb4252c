/** Applying a transformer's list of updates one after another, as every
    per-event transformer does after building that list. */
module Fold {
  import opened StateModels
  import opened StateUpdates

  /** The state reached by applying `us` to `s` from first to last. */
  function ApplyAll(ids: map<string, string>, s: State, us: seq<StateUpdate>): (r: State)
    ensures r.user == s.user
    ensures us == [] ==> r == s
    ensures us != [] ==> r.time == us[|us| - 1].time
    ensures s.spotPositions.Keys <= r.spotPositions.Keys
    ensures s.perpPositions.Keys <= r.perpPositions.Keys
    ensures s.vaultPositions.Keys <= r.vaultPositions.Keys
    decreases |us|
  {
    if us == [] then s else ApplyAll(ids, ApplyUpdate(ids, s, us[0]), us[1..])
  }

  /** `new_state = state_update(new_state, update)` for each update in order. */
  method ApplyUpdates(ids: map<string, string>, s: State, us: seq<StateUpdate>) returns (r: State)
    ensures r == ApplyAll(ids, s, us)
  {
    r := s;
    for i := 0 to |us|
      invariant ApplyAll(ids, r, us[i..]) == ApplyAll(ids, s, us)
    {
      assert us[i..][1..] == us[i + 1..];
      r := ApplyUpdate(ids, r, us[i]);
    }
  }

  /** A one-element list is one primitive update. */
  lemma ApplyAllOne(ids: map<string, string>, s: State, u: StateUpdate)
    ensures ApplyAll(ids, s, [u]) == ApplyUpdate(ids, s, u)
  {
    assert [u][1..] == [];
  }

  /** A two-element list is two primitive updates in order. */
  lemma ApplyAllTwo(ids: map<string, string>, s: State, u: StateUpdate, v: StateUpdate)
    ensures ApplyAll(ids, s, [u, v]) == ApplyUpdate(ids, ApplyUpdate(ids, s, u), v)
  {
    assert [u, v][1..] == [v];
    ApplyAllOne(ids, ApplyUpdate(ids, s, u), v);
  }

  /** Applying a concatenation is applying its halves in turn. */
  lemma {:induction false} ApplyAllAppend(ids: map<string, string>, s: State, us: seq<StateUpdate>, vs: seq<StateUpdate>)
    ensures ApplyAll(ids, s, us + vs) == ApplyAll(ids, ApplyAll(ids, s, us), vs)
    decreases |us|
  {
    if us != [] {
      assert (us + vs)[0] == us[0];
      assert (us + vs)[1..] == us[1..] + vs;
      ApplyAllAppend(ids, ApplyUpdate(ids, s, us[0]), us[1..], vs);
    } else {
      assert us + vs == vs;
    }
  }

  /** Any list of updates keeps a snapshot well formed. */
  lemma {:induction false} ApplyAllWellFormed(ids: map<string, string>, s: State, us: seq<StateUpdate>)
    ensures WellFormed(s) ==> WellFormed(ApplyAll(ids, s, us))
    decreases |us|
  {
    if us != [] && WellFormed(s) {
      ApplyUpdateWellFormed(ids, s, us[0]);
      ApplyAllWellFormed(ids, ApplyUpdate(ids, s, us[0]), us[1..]);
    }
  }
}
