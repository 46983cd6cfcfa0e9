/** The messages of the `KV` and `LogHelper` gRPC services (kv.proto). */
module Proto {
  import opened GoTypes

  datatype Empty = Empty
  datatype InitRequest = InitRequest(brokerId: uint32)
  datatype GetRequest = GetRequest(key: string)
  datatype GetResponse = GetResponse(value: Bytes)
  datatype PutRequest = PutRequest(key: string, value: Bytes)
  datatype LogRequest = LogRequest(level: int32, message: string)
}
