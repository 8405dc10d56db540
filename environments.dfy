/**
 * The process environment block as System.Environment exposes it on Linux:
 * names are case-sensitive, and setting a variable to null, to the empty
 * string or to a value starting with NUL removes it.
 */
module Environments {
  import opened Common

  /** Environment.SetEnvironmentVariable rejects an empty name, a leading NUL and any '='. */
  predicate ValidVariableName(name: string)
  {
    name != "" && name[0] != '\0' && '=' !in name
  }

  /** SetEnvironmentVariable removes the variable for a null or empty value and for one starting with NUL. */
  predicate RemovesVariable(value: Option<string>)
  {
    IsNullOrEmpty(value) || value.value[0] == '\0'
  }

  /** The variables after a successful SetEnvironmentVariable(name, value). */
  function SetVariable(variables: map<string, string>, name: string, value: Option<string>): (r: map<string, string>)
    ensures RemovesVariable(value) ==> name !in r
    ensures !RemovesVariable(value) ==> name in r && r[name] == value.value
    ensures forall n :: n != name ==> (n in r <==> n in variables)
    ensures forall n :: n != name && n in r ==> r[n] == variables[n]
  {
    if RemovesVariable(value) then variables - {name} else variables[name := value.value]
  }

  class ProcessEnvironment {
    var variables: map<string, string>

    constructor (variables: map<string, string>)
      ensures this.variables == variables
    {
      this.variables := variables;
    }

    /** IEnvironment.GetEnvironmentVariable: null for a variable that is not set. */
    function GetEnvironmentVariable(name: string): (r: Option<string>)
      reads this
      ensures r.Some? <==> name in variables
      ensures r.Some? ==> r.value == variables[name]
    {
      if name in variables then Some(variables[name]) else None
    }

    /** IEnvironment.SetEnvironmentVariable */
    method SetEnvironmentVariable(name: string, value: Option<string>) returns (r: Result<()>)
      modifies this
      ensures r.Ok? <==> ValidVariableName(name)
      ensures variables == if r.Ok? then SetVariable(old(variables), name, value) else old(variables)
    {
      if !ValidVariableName(name) {
        return Err(ArgumentInvalid("variable"));
      }
      variables := SetVariable(variables, name, value);
      r := Ok(());
    }
  }
}
