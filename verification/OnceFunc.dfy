/** `sync.OnceFunc`: the first caller runs the function, callers that arrive meanwhile wait, later ones do nothing. */
module OnceFunc {
  datatype Once<C> = Fresh | Running(caller: C) | Done

  /** A once-function, with how often its body was entered and left. */
  datatype Gate<C> = Gate(once: Once<C>, started: nat, finished: nat)

  predicate MayCall<C(==)>(gate: Gate<C>, who: C) {
    gate.once.Running? ==> gate.once.caller == who
  }

  /** One step of a caller; `weight` is 0 when the function turns out to do nothing. */
  function Call<C(==)>(gate: Gate<C>, who: C, weight: nat): Gate<C>
    requires MayCall(gate, who)
  {
    match gate.once
    case Fresh => Gate(Running(who), gate.started + weight, gate.finished)
    case Running(_) => Gate(Done, gate.started, gate.finished + weight)
    case Done => gate
  }

  /** The caller is through once the function is done. */
  predicate Through<C>(gate: Gate<C>) {
    !gate.once.Fresh?
  }

  predicate GateOk<C>(gate: Gate<C>, weight: nat) {
    match gate.once
    case Fresh => gate.started == 0 && gate.finished == 0
    case Running(_) => gate.started == weight && gate.finished == 0
    case Done => gate.started == weight && gate.finished == weight
  }

  function OnceRank<C>(once: Once<C>): nat {
    match once
    case Fresh => 2
    case Running(_) => 1
    case Done => 0
  }

  /** A call uses the once-function up, and a caller that is not through yet has done so. */
  lemma CallRank<C>(gate: Gate<C>, who: C, weight: nat)
    requires MayCall(gate, who)
    ensures OnceRank(Call(gate, who, weight).once) <= OnceRank(gate.once)
    ensures !gate.once.Done? ==> OnceRank(Call(gate, who, weight).once) < OnceRank(gate.once)
  {
  }
}
