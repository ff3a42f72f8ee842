/** The parameter registry: parameters in insertion order, each knowing its
    position, and a map from id to parameter. */
module Registry {
  import opened Params
  import opened ValueTypes

  /** `addParameter` either succeeds or throws `std::logic_error` on an id
      that is already present. */
  datatype Outcome = Ok | DuplicateId

  class Parameters {
    var params: seq<Parameter>
    var byId: map<nat, Parameter>

    /** An empty registry, before the constructor adds the plugin's parameters. */
    constructor Empty()
      ensures params == [] && byId == map[]
    {
      params := [];
      byId := map[];
    }

    /** The parameter at position i has index i. */
    ghost predicate Indexed()
      reads this, params
    {
      forall i :: 0 <= i < |params| ==> params[i].index == i
    }

    /** The map sends every id to a parameter with that id. */
    ghost predicate Keyed()
      reads this, byId.Values
    {
      forall k :: k in byId ==> byId[k].id == k
    }

    /** `addParameter`: a new parameter gets the current size as its index;
        `insert_or_assign` always stores it under its id, and only a fresh
        id extends the list.  On a duplicate the list is unchanged and the
        map keeps pointing at the parameter that the throw destroys, which
        is in no list. */
    method AddParameter(id: nat, name: string, valueType: ValueType) returns (outcome: Outcome)
      modifies this
      ensures id in byId && fresh(byId[id])
      ensures byId[id].id == id && byId[id].name == name && byId[id].valueType == valueType
      ensures byId[id].index == |old(params)| && byId[id].value == 0.0 && byId[id].listeners == []
      ensures forall k :: k in old(byId) && k != id ==> k in byId && byId[k] == old(byId[k])
      ensures forall k :: k in byId ==> k in old(byId) || k == id
      ensures outcome == DuplicateId <==> id in old(byId)
      ensures outcome == DuplicateId ==> params == old(params) && byId[id] !in params
      ensures outcome == Ok ==> params == old(params) + [byId[id]]
      ensures old(Indexed()) ==> Indexed()
      ensures old(Keyed()) ==> Keyed()
    {
      var p := new Parameter(id, name, valueType, |params|);
      var existed := id in byId;
      byId := byId[id := p];
      if existed {
        return DuplicateId;
      }
      params := params + [p];
      outcome := Ok;
    }

    /** `getParamById`: null for an unknown id. */
    function GetParamById(id: nat): (r: Parameter?)
      reads this
      ensures r == null <==> id !in byId
      ensures r != null ==> r == byId[id]
    {
      if id !in byId then null else byId[id]
    }

    /** `getParamByIndex`: null past the end. */
    function GetParamByIndex(index: nat): (r: Parameter?)
      reads this, params
      ensures r == null <==> index >= |params|
      ensures r != null ==> r == params[index]
      ensures r != null && Indexed() ==> r.index == index
    {
      if index >= |params| then null else params[index]
    }
  }
}
