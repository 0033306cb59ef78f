/** The image-loader client: the connection id it holds (0 when not
    connected), and the fetching of an image's buffer, decoded image or size
    under that connection. */
module ImageHarmony {
  import opened Rpc

  /** The id that means "not connected". */
  const NOT_CONNECTED_ID: int := 0

  /** OpenCV's IMWRITE_JPEG_QUALITY flag. */
  const IMWRITE_JPEG_QUALITY: int := 1

  /** The default encoding asked for: JPEG at quality 80. */
  const DEFAULT_FORMAT: string := ".jpg"
  const DEFAULT_PARAMS: seq<int> := [IMWRITE_JPEG_QUALITY, 80]

  const DISCONNECTED_MESSAGE: string := "Disconnected from image loader"
  const NOT_CONNECTED_MESSAGE: string := "Not connected to image loader"

  /** The image request of getImageByImageId, under a connection. */
  datatype ImageRequest = ImageRequest(
    connectionId: int, imageId: int, noImageBuffer: bool,
    format: string, params: seq<int>, expectedW: int, expectedH: int)

  /** The image part of the response: id, encoded buffer and size. */
  datatype ImageResponse = ImageResponse(imageId: int, buffer: seq<byte>, width: int, height: int)

  /** The connection id after a call, and the (success, message) pair the
      call returns. */
  datatype Transition = Transition(connectionId: int, ok: bool, message: string)

  /** connect_image_loader: whenever the call returns, whatever its status,
      the connection id becomes the one in the response and the call counts
      as a success; an RPC error leaves the id alone. */
  function ConnectStep(id: int, reply: Reply<int>): (t: Transition)
    ensures t.ok <==> reply.Returned?
    ensures reply.Returned? ==> t.connectionId == reply.body && t.message == reply.message
    ensures reply.RpcError? ==> t.connectionId == id && t.message == "gRPC error: " + reply.detail
  {
    match reply
    case Returned(_, message, connectionId) => Transition(connectionId, true, message)
    case RpcError(detail) => Transition(id, false, "gRPC error: " + detail)
  }

  /** disconnect_image_loader: without a connection nothing is called and
      nothing changes; with one, a returned call resets the id to 0 and an
      RPC error leaves it alone. */
  function DisconnectStep(id: int, reply: Reply<()>): (t: Transition)
    ensures id == NOT_CONNECTED_ID ==> t == Transition(id, true, NOT_CONNECTED_MESSAGE)
    ensures id != NOT_CONNECTED_ID ==> (t.ok <==> reply.Returned?)
    ensures id != NOT_CONNECTED_ID && reply.Returned? ==> t.message == DISCONNECTED_MESSAGE
    ensures t.ok ==> t.connectionId == NOT_CONNECTED_ID
    ensures !t.ok ==> t.connectionId == id && t.message == "gRPC error: " + reply.detail
  {
    if id == NOT_CONNECTED_ID then Transition(id, true, NOT_CONNECTED_MESSAGE)
    else match reply
      case Returned(_, _, _) => Transition(NOT_CONNECTED_ID, true, DISCONNECTED_MESSAGE)
      case RpcError(detail) => Transition(id, false, "gRPC error: " + detail)
  }

  /** A successful disconnect leaves the client unconnected, so a second
      disconnect is the no-op case, whatever the service would answer. */
  lemma SecondDisconnectIsNoop(id: int, first: Reply<()>, second: Reply<()>)
    requires DisconnectStep(id, first).ok
    ensures DisconnectStep(DisconnectStep(id, first).connectionId, second)
            == Transition(NOT_CONNECTED_ID, true, NOT_CONNECTED_MESSAGE)
  {
  }

  /** Connecting to a non-zero id and then disconnecting, both calls
      returning, ends unconnected; had the disconnect failed, the id would
      still be the one connected to. */
  lemma ConnectThenDisconnect(id: int, connect: Reply<int>, disconnect: Reply<()>)
    requires connect.Returned? && connect.body != NOT_CONNECTED_ID
    ensures var t := DisconnectStep(ConnectStep(id, connect).connectionId, disconnect);
            t.connectionId == (if disconnect.Returned? then NOT_CONNECTED_ID else connect.body)
  {
  }

  /** The request get_image_buffer_by_image_id sends. */
  function BufferRequest(connectionId: int, imageId: int, width: int, height: int, format: string, params: seq<int>): ImageRequest
  {
    ImageRequest(connectionId, imageId, false, format, params, width, height)
  }

  /** The request get_image_size_by_image_id sends: no buffer, and the
      protocol's defaults for everything else. */
  function SizeRequest(connectionId: int, imageId: int): ImageRequest
  {
    ImageRequest(connectionId, imageId, true, "", [], 0, 0)
  }

  class ImageHarmonyClient {
    var connectionId: int

    constructor ()
      ensures connectionId == NOT_CONNECTED_ID
    {
      connectionId := NOT_CONNECTED_ID;
    }

    /** connect_image_loader: the call is given the hash of the loader's
        arguments. */
    method ConnectImageLoader(loaderArgsHash: int, call: int -> Reply<int>) returns (ok: bool, message: string)
      modifies this
      ensures Transition(connectionId, ok, message) == ConnectStep(old(connectionId), call(loaderArgsHash))
    {
      var reply := call(loaderArgsHash);
      match reply {
        case Returned(_, msg, id) =>
          connectionId := id;
          ok, message := true, msg;
        case RpcError(detail) =>
          ok, message := false, "gRPC error: " + detail;
      }
    }

    /** disconnect_image_loader: the call is given the current connection
        id, and is made only when there is one. */
    method DisconnectImageLoader(call: int -> Reply<()>) returns (ok: bool, message: string)
      modifies this
      ensures Transition(connectionId, ok, message) == DisconnectStep(old(connectionId), call(old(connectionId)))
      ensures old(connectionId) == NOT_CONNECTED_ID ==> unchanged(this)
    {
      if connectionId != NOT_CONNECTED_ID {
        var reply := call(connectionId);
        if reply.RpcError? {
          return false, "gRPC error: " + reply.detail;
        }
        connectionId := NOT_CONNECTED_ID;
        return true, DISCONNECTED_MESSAGE;
      }
      return true, NOT_CONNECTED_MESSAGE;
    }

    /** get_image_buffer_by_image_id: asks under the current connection id;
        (0, empty) on a status other than 200, otherwise the id and buffer of
        the response; an RPC error is not caught. */
    function GetImageBufferByImageId(
      call: ImageRequest -> Reply<ImageResponse>, imageId: int, width: int, height: int,
      format: string := DEFAULT_FORMAT, params: seq<int> := DEFAULT_PARAMS): (r: Result<(int, seq<byte>)>)
      reads this
      ensures var reply := call(BufferRequest(connectionId, imageId, width, height, format, params));
              && (reply.RpcError? ==> r == Failure(Transport(reply.detail)))
              && (reply.Returned? && reply.code != OK ==> r == Success((0, [])))
              && (Succeeded(reply) ==> r == Success((reply.body.imageId, reply.body.buffer)))
    {
      match call(BufferRequest(connectionId, imageId, width, height, format, params))
      case RpcError(detail) => Failure(Transport(detail))
      case Returned(code, _, response) =>
        if code != OK then Success((0, [])) else Success((response.imageId, response.buffer))
    }

    /** get_image_by_image_id: every failure is caught. No buffer (a failed
        or refused fetch, or an empty buffer) gives (0, no image); a buffer
        that does not decode gives the response's id and no image. */
    function GetImageByImageId<Image>(
      call: ImageRequest -> Reply<ImageResponse>, decode: seq<byte> -> Option<Image>,
      imageId: int, width: int, height: int,
      format: string := DEFAULT_FORMAT, params: seq<int> := DEFAULT_PARAMS): (r: (int, Option<Image>))
      reads this
      ensures var fetched := GetImageBufferByImageId(call, imageId, width, height, format, params);
              && (fetched.Failure? || fetched.value.1 == [] ==> r == (0, None))
              && (fetched.Success? && fetched.value.1 != [] ==> r == (fetched.value.0, decode(fetched.value.1)))
      ensures !Succeeded(call(BufferRequest(connectionId, imageId, width, height, format, params))) ==> r == (0, None)
    {
      match GetImageBufferByImageId(call, imageId, width, height, format, params)
      case Failure(_) => (0, None)
      case Success((id, buffer)) =>
        if buffer == [] then (0, None)
        else match decode(buffer)
          case None => (id, None)
          case Some(image) => (id, Some(image))
    }

    /** get_image_size_by_image_id: the width and height of the response on
        status 200; (0, 0) on any other status and on any error. */
    function GetImageSizeByImageId(call: ImageRequest -> Reply<ImageResponse>, imageId: int): (r: (int, int))
      reads this
      ensures var reply := call(SizeRequest(connectionId, imageId));
              && (Succeeded(reply) ==> r == (reply.body.width, reply.body.height))
              && (!Succeeded(reply) ==> r == (0, 0))
    {
      var reply := call(SizeRequest(connectionId, imageId));
      if Succeeded(reply) then (reply.body.width, reply.body.height) else (0, 0)
    }
  }
}
