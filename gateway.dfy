/** The persistence gateway the collection API writes through
    (`metadataStore.dataapi.raw_commands`). Its internals are not part of
    this model: a gateway is an oracle that answers each call it receives. */
module RawCommands {
  import opened PyValues

  /** One call into the gateway, with its keyword arguments. */
  datatype Call =
    | SaveHeader(scanId: Value, headerOwner: Value, startTime: Value,
                 beamlineId: Value, status: Value, custom: Value)
    | SaveBeamlineConfig(scanId: Value, configParams: Value)
    | InsertEventDescriptor(scanId: Value, eventTypeId: Value, descriptorName: Value,
                            typeDescriptor: Value, tag: Value)
    | InsertEvent(scanId: Value, descriptorName: Value, owner: Value,
                  seqNo: Value, data: Value, description: Value)
    | Find(scanId: Value, owner: Value, startTime: Value,
           beamlineId: Value, endTime: Value, data: Value)
  {
    /** The four calls that write a document. */
    predicate IsWrite() {
      !Find?
    }
  }

  /** An exception raised inside the gateway or the database driver. */
  datatype GatewayError =
    | ConnectionFailure
    | NotUniqueError
    | OtherGatewayError(name: string)

  /** What the gateway does with one call: it returns a value or raises. */
  datatype Reply = Returned(value: Value) | Raised(error: GatewayError)

  /** A gateway in a given database state: the reply it gives to each call. */
  type Gateway = Call -> Reply
}
