/** The peer object a Bluetooth LE scan reports (bleak's `BLEDevice`),
    shared by the lamp session and the scanner. */
module Ble {
  import opened Wrappers

  /** A reported peer: its advertised name, which may be absent, and its address. */
  datatype BleDevice = BleDevice(name: Option<string>, address: string)
}
