/** The older revision of the parameter layer that its header still
    carries: a value type holding raw bounds and default, a parameter built
    from a filled-in CLAP info record, and a registry that builds that
    record. */
module LegacyRegistry {
  import opened Clap
  import Registry

  /** The older `ParamValueType`: bounds and default stored as given. */
  datatype LegacyValueType = LegacyValueType(min: real, max: real, default: real, unit: string)

  /** `ParamPercentValueType`: [0, 1] shown as a percentage. */
  function PercentValueType(defaultVal: real): (r: LegacyValueType)
    ensures r.min == 0.0 && r.max == 1.0 && r.default == defaultVal && r.unit == " %"
  {
    LegacyValueType(0.0, 1.0, defaultVal, " %")
  }

  class LegacyParameter {
    const info: ParamInfo
    const valueType: LegacyValueType
    const index: nat
    var value: real

    constructor (info: ParamInfo, valueType: LegacyValueType, index: nat)
      ensures this.info == info && this.valueType == valueType && this.index == index && value == 0.0
    {
      this.info := info;
      this.valueType := valueType;
      this.index := index;
      value := 0.0;
    }
  }

  /** The info record `addParameter` fills in: id and flags as given, the
      bounds and default copied from the value type, and the name cut to
      the CLAP name buffer. */
  function InfoFor(id: nat, name: string, flags: bv32, valueType: LegacyValueType): (r: ParamInfo)
    ensures r.id == id && r.flags == flags
    ensures r.minValue == valueType.min && r.maxValue == valueType.max && r.defaultValue == valueType.default
    ensures r.name <= name && |r.name| < NameSize
    ensures |name| < NameSize ==> r.name == name
  {
    ParamInfo(id, flags, NameCopy(name), valueType.min, valueType.max, valueType.default)
  }

  class Parameters {
    var params: seq<LegacyParameter>
    var byId: map<nat, LegacyParameter>

    constructor ()
      ensures params == [] && byId == map[]
    {
      params := [];
      byId := map[];
    }

    ghost predicate Indexed()
      reads this, params
    {
      forall i :: 0 <= i < |params| ==> params[i].index == i
    }

    /** `addParameter`: as in the current registry, `insert_or_assign`
        stores the new parameter under its id before the duplicate check
        throws, so a duplicate leaves the list as it was. */
    method AddParameter(id: nat, name: string, flags: bv32, valueType: LegacyValueType) returns (outcome: Registry.Outcome)
      modifies this
      ensures id in byId && fresh(byId[id])
      ensures byId[id].info == InfoFor(id, name, flags, valueType) && byId[id].valueType == valueType
      ensures byId[id].index == |old(params)| && byId[id].value == 0.0
      ensures forall k :: k in old(byId) && k != id ==> k in byId && byId[k] == old(byId[k])
      ensures forall k :: k in byId ==> k in old(byId) || k == id
      ensures outcome == Registry.DuplicateId <==> id in old(byId)
      ensures outcome == Registry.DuplicateId ==> params == old(params) && byId[id] !in params
      ensures outcome == Registry.Ok ==> params == old(params) + [byId[id]]
      ensures old(Indexed()) ==> Indexed()
    {
      var info := InfoFor(id, name, flags, valueType);
      var p := new LegacyParameter(info, valueType, |params|);
      var existed := id in byId;
      byId := byId[id := p];
      if existed {
        return Registry.DuplicateId;
      }
      params := params + [p];
      outcome := Registry.Ok;
    }

    /** `count`. */
    function Count(): (r: nat)
      reads this
      ensures r == |params|
    {
      |params|
    }

    /** `isValidParamId`. */
    predicate IsValidParamId(id: nat)
      reads this
      ensures IsValidParamId(id) <==> GetParamById(id) != null
    {
      id in byId
    }

    /** `getParamById`: null for an unknown id. */
    function GetParamById(id: nat): (r: LegacyParameter?)
      reads this
      ensures r == null <==> id !in byId
      ensures r != null ==> r == byId[id]
    {
      if id !in byId then null else byId[id]
    }

    /** `getParamByIndex`: null past the end. */
    function GetParamByIndex(index: nat): (r: LegacyParameter?)
      reads this, params
      ensures r == null <==> index >= Count()
      ensures r != null ==> r == params[index]
      ensures r != null && Indexed() ==> r.index == index
    {
      if index >= |params| then null else params[index]
    }
  }
}
