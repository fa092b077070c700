/** The .NET exception categories that the relay's code throws or catches. */
module Exceptions {

  datatype Exception =
    | HttpRequestException(message: string)
    | InvalidOperationException(message: string)
    | ArgumentOutOfRangeException(message: string)
    | OtherException(typeName: string, message: string)
  {
    function Message(): string {
      match this
      case HttpRequestException(m) => m
      case InvalidOperationException(m) => m
      case ArgumentOutOfRangeException(m) => m
      case OtherException(_, m) => m
    }
  }
}
