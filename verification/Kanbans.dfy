/** The kanban records that travel between services and between devices. */
module Kanbans {
  import opened Paths

  /** A `google.protobuf.Value`; `Unset` is a value whose kind is missing. */
  datatype Value =
    | StructValue(fields: map<string, Value>)
    | ListValue(values: seq<Value>)
    | StringValue(text: string)
    | NumberValue(number: real)
    | BoolValue(flag: bool)
    | NullValue
    | Unset

  datatype StatusKanban = StatusKanban(
    startAt: string,
    finishAt: string,
    nextDeviceName: string,
    connectionKey: string,
    processNumber: int,
    priorSuccess: bool,
    dataPath: string,
    fileList: seq<PathText>,
    metadata: map<string, Value>)

  /** A kanban addressed to a service on another device. */
  datatype SendKanban = SendKanban(
    deviceName: string,
    deviceAddr: string,
    nextService: PathText,
    nextNumber: int,
    afterKanban: StatusKanban)
}
