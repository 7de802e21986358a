/** The request handlers as the server runs them, changing the connection's fields and the shared state
    in place; each does what Handlers says. Source: src/server/client_controller.cpp:62-186, 257-307,
    342-377, 477-490. */
module Controller {
  import opened Protocol
  import opened Files
  import opened Handlers
  import opened Systems
  import opened Connection
  import Paths

  class ServerShared {
    var files: Disk
    var adminConnected: bool

    ghost function View(): Shared
      reads this
    {
      Shared(files, adminConnected)
    }
  }

  method Login(cfg: Config, c: ConnectionWrapper, data: seq<byte>, g: ServerShared) returns (reply: seq<byte>)
    modifies c`id, c`currentDir, c`isAdmin, g`adminConnected
    ensures Outcome(c.View(), g.View(), reply) == HandleLogin(cfg, data, old(c.View()), old(g.View()))
  {
    var who := Credentials(data);
    if who in cfg.users {
      c.id := cfg.users[who].id;
      c.currentDir := "./tmp" + "/" + c.id;
      if cfg.users[who].admin {
        if g.adminConnected {
          c.id := "";
          c.currentDir := "";
          return Sample(RESP_ADMIN_ALREADY_CONNECTED);
        }
        g.adminConnected := true;
        c.isAdmin := true;
      }
      reply := LoggedIn(c.isAdmin);
    } else {
      reply := Sample(RESP_BAD_LOGIN);
    }
  }

  method Logout(c: ConnectionWrapper, g: ServerShared) returns (reply: seq<byte>)
    modifies c`id, g`adminConnected
    ensures Outcome(c.View(), g.View(), reply) == HandleLogout(old(c.View()), old(g.View()))
  {
    if c.isAdmin {
      g.adminConnected := false;
    }
    c.id := "";
    reply := Sample(RESP_OK);
  }

  method ChangeDirectory(cfg: Config, c: ConnectionWrapper, data: seq<byte>, ghost shared: Shared)
    returns (reply: seq<byte>)
    modifies c`currentDir
    ensures Outcome(c.View(), shared, reply) == HandleCd(cfg, data, old(c.View()), shared)
  {
    var newDir := Paths.CdCommand(cfg.dirs, c.currentDir, Destination(data));
    if newDir == "" {
      return Sample(RESP_IO_ERROR);
    }
    c.currentDir := newDir;
    reply := Sample(RESP_OK);
  }

  method TransferStart(cfg: Config, c: ConnectionWrapper, data: seq<byte>, g: ServerShared) returns (reply: seq<byte>)
    modifies c`fd, g`files
    ensures Outcome(c.View(), g.View(), reply) == HandleStart(cfg, data, old(c.View()), old(g.View()))
  {
    var name := StartName(data);
    if !Paths.IsValidFilename(name) {
      return Sample(RESP_IO_ERROR);
    }
    var path := StartPath(c.currentDir, name);
    if path in cfg.unopenable {
      c.fd := NoFile;
    } else {
      g.files := g.files[path := Content(g.files, path)];
      c.fd := File(path, 0);
    }
    reply := Sample(RESP_CONTINUE);
  }

  method TransferData(c: ConnectionWrapper, data: seq<byte>, g: ServerShared, answer: byte) returns (reply: seq<byte>)
    modifies c`fd, g`files
    ensures Outcome(c.View(), g.View(), reply) == HandleWrite(data, old(c.View()), old(g.View()), answer)
  {
    var body := if |data| >= HEADER_SIZE then data[HEADER_SIZE..] else [];
    if c.fd.File? {
      var path, offset := c.fd.path, c.fd.offset;
      g.files := g.files[path := WriteAt(Content(g.files, path), offset, body)];
      c.fd := File(path, offset + |body|);
    }
    reply := Sample(answer);
  }

  method FileOpen(cfg: Config, c: ConnectionWrapper, data: seq<byte>, g: ServerShared) returns (reply: seq<byte>)
    modifies c`downloadFd
    ensures Outcome(c.View(), g.View(), reply) == HandleOpen(cfg, data, old(c.View()), g.View())
  {
    hide OpenName, OpenPath, FileOpened, Paths.IsValidFilename;
    var name := OpenName(data);
    if !Paths.IsValidFilename(name) {
      return Sample(RESP_IO_ERROR);
    }
    var path := OpenPath(c.currentDir, name);
    if path in cfg.unopenable || path !in g.files {
      return Sample(RESP_IO_ERROR);
    }
    var size := |g.files[path]|;
    var count := size / MAX_CHUNK + (if size % MAX_CHUNK != 0 then 1 else 0);
    c.downloadFd := File(path, 0);
    reply := FileOpened(count, name);
  }

  method DownloadChunk(c: ConnectionWrapper, data: seq<byte>, g: ServerShared) returns (reply: seq<byte>)
    modifies c`downloadFd
    ensures Outcome(c.View(), g.View(), reply) == HandleChunk(data, old(c.View()), g.View())
  {
    reply := [];
    if c.downloadFd == NoFile {
      // The failed seek is answered, and then the buffer that answer was built in is sent once more.
      reply := Sample(RESP_IO_ERROR);
      reply := reply + Sample(RESP_IO_ERROR);
    } else {
      var path, index := c.downloadFd.path, ChunkIndex(data);
      var bytes := ChunkAt(Content(g.files, path), index);
      c.downloadFd := File(path, index * MAX_CHUNK + |bytes|);
      reply := MakePacket(RESP_FILE_CHUNK, bytes);
    }
  }

  /** process_packet: the command comes from the live receive buffer, the fields from the snapshot. */
  method ProcessPacket(cfg: Config, c: ConnectionWrapper, data: seq<byte>, g: ServerShared) returns (reply: seq<byte>)
    requires c.Valid() && Modelled(LiveType(c.buffer[..]))
    modifies c`id, c`currentDir, c`isAdmin, c`fd, c`downloadFd, g
    ensures c.Valid()
    ensures Outcome(c.View(), g.View(), reply) ==
            Handle(cfg, LiveType(c.buffer[..]), data, old(c.View()), old(g.View()))
  {
    var command := c.GetPacketType();
    if command != REQ_LOGIN && command != REQ_PING && command != REQ_LOGOUT && c.id == "" {
      return Sample(RESP_NOT_LOGGED_IN);
    }
    if command == REQ_FILE_TRANSFER_START {
      reply := TransferStart(cfg, c, data, g);
    } else if command == REQ_FILE_TRANSFER_CHUNK {
      reply := TransferData(c, data, g, RESP_CONTINUE);
    } else if command == REQ_FILE_TRANSFER_END {
      reply := TransferData(c, data, g, RESP_FILE_TRANSFER_OK);
    } else if command == REQ_FILE_OPEN {
      reply := FileOpen(cfg, c, data, g);
    } else if command == REQ_FILE_DOWNLOAD_CHUNK {
      reply := DownloadChunk(c, data, g);
    } else if command == REQ_LOGIN {
      reply := Login(cfg, c, data, g);
    } else if command == REQ_LOGOUT {
      reply := Logout(c, g);
    } else if command == REQ_CHANGE_WORKING_DIRECTORY {
      reply := ChangeDirectory(cfg, c, data, g.View());
    } else if command == REQ_CURRENT_DIRECTORY {
      reply := MakePacket(RESP_CURRENT_DIRECTORY, Pad(Bytes(c.currentDir), 512));
    } else if command == REQ_GET_CURRENT_USER {
      reply := MakePacket(RESP_CURRENT_USER, Pad(Bytes(c.id), 255) + [0]);
    } else {
      reply := Sample(RESP_PONG);
    }
  }
}
