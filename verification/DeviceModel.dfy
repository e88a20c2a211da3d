/** The value types of src/model/device_model.h that the runtime passes around. Identifiers are
    strings; measured values are reals, so rounding and NaN are not modelled. */
module DeviceModel {

  datatype Option<+T> = None | Some(value: T)

  datatype Quality = Good | Bad | Uncertain

  datatype Telemetry = Telemetry(
    tsMs: nat, deviceId: string, pointId: string, value: real, unit: string,
    quality: Quality, sourceId: nat)

  datatype SystemState = Init | Standby | Running | Degraded | Fault | Stopped

  datatype Alarm = Alarm(id: nat, tsMs: nat, deviceId: string, code: string)

  datatype CommandState = Pending | Sent | Acked | Verified | Timeout | Retrying | Failed

  datatype Command = Command(
    id: nat, createdMs: nat, target: string, pointId: string, value: real,
    state: CommandState, maxRetries: nat, message: string)

  const SOC := "soc_percent"
  const CELL_TEMP := "max_cell_temp_c"
  const GRID_POWER := "grid_power_kw"

  /** The control limits of gateway_config_t. */
  datatype Limits = Limits(tempHigh: real, peakThreshold: real, maxDischarge: real, minSoc: real)
}
