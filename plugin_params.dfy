/** The plugin's first, fixed parameter set: three parameters (drive, gain,
    cutoff) whose values live in fields reached through an id map, and a
    static description of each for the host. */
module PluginParams {
  import opened Clap

  const DriveId: nat := 0
  const GainId: nat := 1
  const CutoffId: nat := 2
  const NbParams: nat := 3

  /** Which field an id's value pointer designates. */
  datatype Slot = DriveSlot | GainSlot | CutoffSlot

  /** Whether `getParamInfo` succeeded, and the record after it. */
  datatype InfoResult = InfoResult(ok: bool, info: ParamInfo)

  /** `getParamInfo`: false with the record untouched past the last index;
      otherwise the AUTOMATABLE flag, the id equal to the index, the name
      and the range and default of that parameter. */
  function GetParamInfo(paramIndex: nat, info: ParamInfo): (r: InfoResult)
    ensures !r.ok <==> paramIndex >= NbParams
    ensures !r.ok ==> r.info == info
    ensures r.ok ==> r.info.id == paramIndex && r.info.flags == ParamIsAutomatable
    ensures r.ok ==> r.info.minValue <= r.info.defaultValue <= r.info.maxValue
  {
    if paramIndex >= NbParams then InfoResult(false, info)
    else
      var flagged := info.(flags := ParamIsAutomatable);
      if paramIndex == DriveId then
        InfoResult(true, flagged.(id := DriveId, name := NameCopy("Drive"), minValue := 0.0, maxValue := 1.0, defaultValue := 0.5))
      else if paramIndex == GainId then
        InfoResult(true, flagged.(id := GainId, name := NameCopy("Gain"), minValue := 0.0, maxValue := 1.0, defaultValue := 0.5))
      else
        InfoResult(true, flagged.(id := CutoffId, name := NameCopy("Cutoff"), minValue := 20.0, maxValue := 20000.0, defaultValue := 500.0))
  }

  /** Drive and Gain span [0, 1] with default 0.5; Cutoff spans [20, 20000] with default 500. */
  lemma ParamInfoContents(info: ParamInfo)
    ensures GetParamInfo(DriveId, info).info.name == "Drive"
    ensures GetParamInfo(GainId, info).info.name == "Gain"
    ensures GetParamInfo(CutoffId, info).info.name == "Cutoff"
    ensures forall i: nat :: i < 2 ==>
      var r := GetParamInfo(i, info).info; r.minValue == 0.0 && r.maxValue == 1.0 && r.defaultValue == 0.5
    ensures
      var r := GetParamInfo(CutoffId, info).info; r.minValue == 20.0 && r.maxValue == 20000.0 && r.defaultValue == 500.0
  {
    assert NameCopy("Drive") == "Drive";
    assert NameCopy("Gain") == "Gain";
    assert NameCopy("Cutoff") == "Cutoff";
  }

  /** For a valid index every field the model keeps is overwritten, so the
      previous contents of the record do not matter. */
  lemma ParamInfoOverwrites(paramIndex: nat, a: ParamInfo, b: ParamInfo)
    requires paramIndex < NbParams
    ensures GetParamInfo(paramIndex, a) == GetParamInfo(paramIndex, b)
  {
  }

  class Parameters {
    var drive: real
    var gain: real
    var cutoff: real
    /** The id map: the three entries the constructor makes, which nothing changes afterwards. */
    const paramToValue: map<nat, Slot> := map[DriveId := DriveSlot, GainId := GainSlot, CutoffId := CutoffSlot]

    /** The constructor maps each id to its field; the fields start at
        their declared defaults. */
    constructor ()
      ensures paramToValue == map[DriveId := DriveSlot, GainId := GainSlot, CutoffId := CutoffSlot]
      ensures drive == 0.5 && gain == 0.5 && cutoff == 500.0
      ensures forall id: nat :: IsValidParamId(id) <==> id < NbParams
      ensures forall id: nat :: id < NbParams ==>
        id in paramToValue && ValueAt(paramToValue[id]) == GetParamInfo(id, EmptyInfo).info.defaultValue
    {
      drive := 0.5;
      gain := 0.5;
      cutoff := 500.0;
    }

    /** `isValidParamId`. */
    predicate IsValidParamId(id: nat)
      ensures IsValidParamId(id) <==> id < NbParams
    {
      id in paramToValue
    }

    /** `getParamToValue`: `at` throws (None) on an unknown id. */
    function GetParamToValue(id: nat): (r: Option<Slot>)
      reads this
      ensures r.Some? <==> IsValidParamId(id)
    {
      if id in paramToValue then Some(paramToValue[id]) else None
    }

    /** The value a slot designates. */
    function ValueAt(s: Slot): real
      reads this
    {
      match s
      case DriveSlot => drive
      case GainSlot => gain
      case CutoffSlot => cutoff
    }
  }

  datatype Option<T> = None | Some(value: T)
}
