/** The parts of the CLAP plugin interface's parameter extension the
    parameter layer fills in: the flag bits and the parameter info record. */
module Clap {
  /** CLAP_PARAM_IS_STEPPED (bit 0) and CLAP_PARAM_IS_AUTOMATABLE (bit 5). */
  const ParamIsStepped: bv32 := 1
  const ParamIsAutomatable: bv32 := 32

  /** CLAP_NAME_SIZE: the name buffer holds 255 characters and a terminator. */
  const NameSize: nat := 256

  /** clap_param_info, without the module path and the cookie, which the
      parameter layer never sets. */
  datatype ParamInfo = ParamInfo(
    id: nat,
    flags: bv32,
    name: string,
    minValue: real,
    maxValue: real,
    defaultValue: real)

  /** A zero-initialised record. */
  const EmptyInfo: ParamInfo := ParamInfo(0, 0, "", 0.0, 0.0, 0.0)

  /** What `snprintf` or `strncpy` into the name buffer keeps of a name: at
      most NameSize - 1 characters. */
  function NameCopy(name: string): (r: string)
    ensures |r| < NameSize
    ensures r <= name
    ensures |name| < NameSize ==> r == name
  {
    if |name| < NameSize then name else name[..NameSize - 1]
  }
}
