/** Raw samples as the driver stores them, and their physical meaning. */
module Sensor {
  import Detection

  type int16 = x: int | -0x8000 <= x < 0x8000
  type uint64 = x: int | 0 <= x < 0x1_0000_0000_0000_0000

  datatype RawVector = RawVector(x: int16, y: int16, z: int16)
  datatype RawSample = RawSample(timestampNs: uint64, accel: RawVector, gyro: RawVector)

  const ACCEL_G_PER_LSB := 0.000732
  const GYRO_DPS_PER_LSB := 0.01750

  function AccelG(raw: int16): real { raw as real * ACCEL_G_PER_LSB }

  function GyroRad(raw: int16): real { raw as real * GYRO_DPS_PER_LSB * Detection.DEG_TO_RAD }

  function Physical(raw: RawSample): Detection.Sample {
    Detection.Sample(
      Detection.Vector(AccelG(raw.accel.x), AccelG(raw.accel.y), AccelG(raw.accel.z)),
      Detection.Vector(GyroRad(raw.gyro.x), GyroRad(raw.gyro.y), GyroRad(raw.gyro.z)))
  }
}
