/**
  The execution context handed to every operation handler: the caller's
  identity, which never changes, and the variables operations in one chain
  share, a map from name to value with last-write-wins updates.
*/
module ExecutionContext {
  import opened Wrappers

  /** The caller's identity, opaque to the core. */
  datatype User = User(userId: string)

  class Context<V> {
    const user: User
    var variables: map<string, V>

    /** A new context for `user`, with no variables. */
    constructor (user: User)
      ensures this.user == user
      ensures variables == map[]
    {
      this.user := user;
      variables := map[];
    }

    /** The value stored under `key`, or null if none was ever stored. */
    function GetVariable(key: string): (r: Option<V>)
      reads this
      ensures r.Some? <==> key in variables
      ensures r.Some? ==> r.value == variables[key]
    {
      if key in variables then Some(variables[key]) else None
    }

    /** Stores `value` under `key`, replacing any earlier value and touching no other key. */
    method SetVariable(key: string, value: V)
      modifies this
      ensures variables == old(variables)[key := value]
    {
      variables := variables[key := value];
    }
  }
}
