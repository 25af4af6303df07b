/** Shared vocabulary: optional values and status conditions.

    A condition list is a map from condition type to condition, because every write
    goes through an upsert by type. Times are whole seconds. */
module Meta {

  datatype Option<+T> = None | Some(value: T)

  /** `since` is the transition time: it moves only when the status flips. */
  datatype Condition = Condition(status: bool, generation: int, reason: string, since: int)

  function SetCondition<T>(conds: map<T, Condition>, t: T, status: bool, generation: int, reason: string, now: int)
    : map<T, Condition>
  {
    var since := if t in conds && conds[t].status == status then conds[t].since else now;
    conds[t := Condition(status, generation, reason, since)]
  }

  /** The condition holds the given status for exactly this generation. */
  predicate Holds<T>(conds: map<T, Condition>, t: T, status: bool, generation: int) {
    t in conds && conds[t].status == status && conds[t].generation == generation
  }

  predicate TrueAt<T>(conds: map<T, Condition>, t: T, generation: int) {
    Holds(conds, t, true, generation)
  }

  function Reason<T>(conds: map<T, Condition>, t: T): string {
    if t in conds then conds[t].reason else ""
  }
}
