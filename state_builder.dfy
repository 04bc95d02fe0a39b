/**
 * A fluent accumulator for a state: setters overwrite the name, the payload
 * and the four hooks, and `build` checks that a name was given.
 */
module StateBuilders {
  import opened Wrappers
  import opened States
  import opened Machine

  class StateBuilder {
    var stateName: string
    var userInfo: Payload
    var willEnter: Option<Hook>
    var didEnter: Option<Hook>
    var willExit: Option<Hook>
    var didExit: Option<Hook>

    /** A fresh builder: blank name, empty payload, no hooks; building it fails. */
    constructor()
      ensures stateName == "" && userInfo == map[]
      ensures willEnter == None && didEnter == None && willExit == None && didExit == None
      ensures Build() == Failure(InvalidState)
    {
      stateName := "";
      userInfo := map[];
      willEnter := None;
      didEnter := None;
      willExit := None;
      didExit := None;
    }

    method Name(value: string) returns (self: StateBuilder)
      modifies this`stateName
      ensures self == this && stateName == value
    {
      stateName := value;
      return this;
    }

    method SetPayload(value: Payload) returns (self: StateBuilder)
      modifies this`userInfo
      ensures self == this && userInfo == value
    {
      userInfo := value;
      return this;
    }

    method ActionWillEnter(action: Hook) returns (self: StateBuilder)
      modifies this`willEnter
      ensures self == this && willEnter == Some(action)
    {
      willEnter := Some(action);
      return this;
    }

    method ActionDidEnter(action: Hook) returns (self: StateBuilder)
      modifies this`didEnter
      ensures self == this && didEnter == Some(action)
    {
      didEnter := Some(action);
      return this;
    }

    method ActionWillExit(action: Hook) returns (self: StateBuilder)
      modifies this`willExit
      ensures self == this && willExit == Some(action)
    {
      willExit := Some(action);
      return this;
    }

    method ActionDidExit(action: Hook) returns (self: StateBuilder)
      modifies this`didExit
      ensures self == this && didExit == Some(action)
    {
      didExit := Some(action);
      return this;
    }

    /** `build()`: a state from the fields, or `invalid_state` when the name is blank. */
    function Build(): (r: Result<State, KryptonError>)
      reads this
      ensures r.Failure? <==> stateName == ""
      ensures r.Failure? ==> r.error == InvalidState
      ensures r.Success? ==> r.value.WellFormed() && r.value.name == stateName && r.value.userInfo == Some(userInfo)
      ensures r.Success? ==> r.value.lifeCycle == Some(LifeCycle(willEnter, didEnter, willExit, didExit))
    {
      if stateName == "" then Failure(InvalidState)
      else Success(NewState(stateName, Some(userInfo), Some(LifeCycle(willEnter, didEnter, willExit, didExit))))
    }
  }
}
