/**
  The two control operations on context variables and their handlers.
  A handler is given the operation, the context and the store; neither
  handler here uses the store, which is a type parameter.
*/
module VariableHandlers {
  import opened Wrappers
  import opened JavaLang
  import opened ExecutionContext

  /** A value together with the class it was declared with. */
  datatype VariableDetail<V> = VariableDetail(valueClass: JavaClass, value: V)

  /** The `SetVariable` operation: a variable name and the detail to store under it. */
  datatype SetVariable<V> = SetVariable(variableName: string, input: VariableDetail<V>)

  /** The `GetVariable` operation: the name to look up. */
  datatype GetVariable = GetVariable(variableName: string)

  /** `GetVariableHandler.doOperation`: the context's entry for the name, null if there is none. */
  function GetVariableHandler<V, S>(operation: GetVariable, context: Context<V>, store: S): (r: Option<V>)
    reads context
    ensures r.Some? <==> operation.variableName in context.variables
    ensures r.Some? ==> r.value == context.variables[operation.variableName]
  {
    context.GetVariable(operation.variableName)
  }

  /** The handler never looks at the store. */
  lemma GetVariableIgnoresStore<V, S>(operation: GetVariable, context: Context<V>, store1: S, store2: S)
    ensures GetVariableHandler(operation, context, store1) == GetVariableHandler(operation, context, store2)
  {
  }

  /** `SetVariableHandler.doOperation`: stores the detail's value, not the detail, under the name. */
  method SetVariableHandler<V, S>(operation: SetVariable<V>, context: Context<V>, store: S)
    modifies context
    ensures context.variables == old(context.variables)[operation.variableName := operation.input.value]
  {
    context.SetVariable(operation.variableName, operation.input.value);
  }

  /**
    A `SetVariable` followed by a `GetVariable` of the same name on the same
    context reads back the value just set; every other name reads as before.
  */
  method SetThenGet<V, S>(name: string, detail: VariableDetail<V>, context: Context<V>, store: S)
    returns (read: Option<V>)
    modifies context
    ensures read == Some(detail.value)
    ensures forall other :: other != name ==> context.GetVariable(other) == old(context.GetVariable(other))
  {
    SetVariableHandler(SetVariable(name, detail), context, store);
    read := GetVariableHandler(GetVariable(name), context, store);
  }

  /**
    A `SetVariable` on a freshly created context: the name reads back the
    detail's value, and the variables are exactly that one entry.
  */
  method SetOnFreshContext<V, S>(user: User, name: string, detail: VariableDetail<V>, store: S)
    returns (read: Option<V>, variables: map<string, V>)
    ensures read == Some(detail.value)
    ensures variables == map[name := detail.value]
  {
    var context := new Context(user);
    SetVariableHandler(SetVariable(name, detail), context, store);
    read := context.GetVariable(name);
    variables := context.variables;
  }
}
