/**
 * The local BLE adapter, as the controller sees it. The Bluetooth library
 * itself is not part of the model: an `Adapter` answers every call from a
 * fixed script of outcomes and records, in `trace`, every call made to it.
 */
module Radio {
  import opened Basics
  import opened Gatt

  /** The text of an error reported by the Bluetooth library. */
  type TransportError = string

  /** An open GATT connection to the peripheral at `address`. */
  datatype Device = Device(address: string)

  /** One call into the Bluetooth library, with the arguments it was given. */
  datatype Call =
    | Enable
    | Scan
    | StopScan
    | Connect(address: string)
    | DiscoverServices(device: Device, filter: seq<Uuid>)
    | DiscoverCharacteristics(service: Service, filter: seq<Uuid>)
    | EnableNotifications(target: Characteristic)
    | WriteWithoutResponse(target: Characteristic, data: seq<bv8>)
    | Disconnect(device: Device)

  /**
   * What the library answers. `advertised` lists the addresses of the
   * advertisements the scan callback receives before the scan's deadline, in
   * the order received. `None` as an error means the call succeeded.
   */
  datatype Script = Script(
    enable: Option<TransportError>,
    scan: Option<TransportError>,
    advertised: seq<string>,
    stopScan: Option<TransportError>,
    connect: Option<TransportError>,
    services: Result<seq<Service>, TransportError>,
    characteristics: Result<seq<Characteristic>, TransportError>,
    enableNotifications: Option<TransportError>,
    write: Option<TransportError>)

  class Adapter {
    const script: Script
    var trace: seq<Call>

    constructor (script: Script)
      ensures this.script == script && trace == []
    {
      this.script := script;
      trace := [];
    }

    method Enable() returns (err: Option<TransportError>)
      modifies this
      ensures trace == old(trace) + [Call.Enable] && err == script.enable
    {
      trace := trace + [Call.Enable];
      err := script.enable;
    }

    /** Starts scanning; `seen` are the advertisements delivered to the callback before the deadline. */
    method Scan() returns (err: Option<TransportError>, seen: seq<string>)
      modifies this
      ensures trace == old(trace) + [Call.Scan] && err == script.scan && seen == script.advertised
    {
      trace := trace + [Call.Scan];
      err, seen := script.scan, script.advertised;
    }

    method StopScan() returns (err: Option<TransportError>)
      modifies this
      ensures trace == old(trace) + [Call.StopScan] && err == script.stopScan
    {
      trace := trace + [Call.StopScan];
      err := script.stopScan;
    }

    method Connect(address: string) returns (r: Result<Device, TransportError>)
      modifies this
      ensures trace == old(trace) + [Call.Connect(address)]
      ensures r == if script.connect.Some? then Failure(script.connect.value) else Success(Device(address))
    {
      trace := trace + [Call.Connect(address)];
      r := if script.connect.Some? then Failure(script.connect.value) else Success(Device(address));
    }

    method DiscoverServices(device: Device, filter: seq<Uuid>) returns (r: Result<seq<Service>, TransportError>)
      modifies this
      ensures trace == old(trace) + [Call.DiscoverServices(device, filter)] && r == script.services
    {
      trace := trace + [Call.DiscoverServices(device, filter)];
      r := script.services;
    }

    method DiscoverCharacteristics(service: Service, filter: seq<Uuid>) returns (r: Result<seq<Characteristic>, TransportError>)
      modifies this
      ensures trace == old(trace) + [Call.DiscoverCharacteristics(service, filter)] && r == script.characteristics
    {
      trace := trace + [Call.DiscoverCharacteristics(service, filter)];
      r := script.characteristics;
    }

    method EnableNotifications(target: Characteristic) returns (err: Option<TransportError>)
      modifies this
      ensures trace == old(trace) + [Call.EnableNotifications(target)] && err == script.enableNotifications
    {
      trace := trace + [Call.EnableNotifications(target)];
      err := script.enableNotifications;
    }

    method WriteWithoutResponse(target: Characteristic, data: seq<bv8>) returns (err: Option<TransportError>)
      modifies this
      ensures trace == old(trace) + [Call.WriteWithoutResponse(target, data)] && err == script.write
    {
      trace := trace + [Call.WriteWithoutResponse(target, data)];
      err := script.write;
    }

    /** Releases the connection; the outcome is not reported. */
    method Disconnect(device: Device)
      modifies this
      ensures trace == old(trace) + [Call.Disconnect(device)]
    {
      trace := trace + [Call.Disconnect(device)];
    }
  }
}
