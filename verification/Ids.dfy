// Connection identifiers and their text.
module Ids {
  import opened Prelude
  import opened Decimal

  datatype ConnectionId =
    | TcpServer(port: U16)
    | IpcServer(path: string)
    | TcpClient(localPort: U16)
    | IpcClient(seqNo: U32)
    | AcceptedTcp(parentPort: U16, remotePort: U16, disambig: Option<U32>)
    | AcceptedIpc(parentPath: string, pid: I32, disambig: Option<U32>)
  {
    predicate IsServer() {
      TcpServer? || IpcServer?
    }

    predicate IsAccepted() {
      AcceptedTcp? || AcceptedIpc?
    }

    /** The server that an accepted connection's id names. */
    function Parent(): Option<ConnectionId> {
      if IsAccepted() then Some(BaseOf().Server()) else None
    }

    function BaseOf(): Base
      requires IsAccepted()
    {
      if AcceptedTcp? then TcpBase(parentPort, remotePort) else IpcBase(parentPath, pid)
    }

    /** The id that a first colliding connection gets by renaming. */
    predicate IsRenamed() {
      IsAccepted() && disambig == Some(1)
    }

    /** `x` is this id, or the id this one had before it was renamed. */
    predicate AnchoredAt(x: ConnectionId) {
      x == this || (IsRenamed() && x == BaseOf().Id(None))
    }
  }

  /** What accepted connections that share one numbering have in common. */
  datatype Base =
    | TcpBase(port: U16, remote: U16)
    | IpcBase(path: string, pid: I32)
  {
    function Server(): ConnectionId {
      match this
      case TcpBase(port, _) => TcpServer(port)
      case IpcBase(path, _) => IpcServer(path)
    }

    function Id(disambig: Option<U32>): (id: ConnectionId)
      ensures id.IsAccepted() && id.BaseOf() == this && id.disambig == disambig
    {
      match this
      case TcpBase(port, remote) => AcceptedTcp(port, remote, disambig)
      case IpcBase(path, pid) => AcceptedIpc(path, pid, disambig)
    }

    /** The key of this base in its server's numbering tables. */
    function Key(): string {
      match this
      case TcpBase(port, remote) => Dec(port) + "." + Dec(remote)
      case IpcBase(path, pid) => path + "." + IntText(pid)
    }
  }

  function Suffix(disambig: Option<U32>): string {
    match disambig
    case Some(n) => "#" + Dec(n)
    case None => ""
  }

  /** The text of an id, as `status` prints it and as a user types it. */
  function Render(id: ConnectionId): string {
    match id
    case TcpServer(port) => Dec(port)
    case IpcServer(path) => path
    case TcpClient(localPort) => Dec(localPort)
    case IpcClient(n) => "ipc:" + Dec(n)
    case AcceptedTcp(parentPort, remotePort, disambig) =>
      Dec(parentPort) + "." + Dec(remotePort) + Suffix(disambig)
    case AcceptedIpc(parentPath, pid, disambig) =>
      parentPath + "." + IntText(pid) + Suffix(disambig)
  }

  /** Two bases of one server have different keys. */
  lemma KeyInjective(a: Base, b: Base)
    requires a.Server() == b.Server()
    requires a.Key() == b.Key()
    ensures a == b
  {
    match a
    case TcpBase(port, remote) =>
      assert a.Key()[|Dec(port)| + 1..] == Dec(remote);
      assert b.Key()[|Dec(port)| + 1..] == Dec(b.remote);
      DecInjective(remote, b.remote);
    case IpcBase(path, pid) =>
      assert a.Key()[|path| + 1..] == IntText(pid);
      assert b.Key()[|path| + 1..] == IntText(b.pid);
      IntTextInjective(pid, b.pid);
  }
}
