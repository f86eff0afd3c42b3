/** The messages of the relay over HTTP. */
module RelayMessages {
  import opened Bytes

  datatype PeerMessage =
    | Connect(deviceId: string)
    | PeerToRelay(session: string, sequence: nat, data: seq<byte>)
    | WaitForData(session: string)
    | PeerClosing(session: string)

  datatype ServerMessage =
    | PeerConnected(session: string, isServerSocket: bool)
    | DataAccepted
    | RelayToPeer(sequence: nat, data: seq<byte>)
    | ServerClosing
    | ErrorMessage
}
